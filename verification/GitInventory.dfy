/**
 The recursive inventory of `_read_bound_tree_inventory` over an arbitrary object store:
 `read_tree` terminates even on cyclic or shared stores, and lists exactly the
 root-to-node paths of the tree it is given.
 */
module GitInventory {
  import opened Common
  import opened GitTreeCodec

  // The tree objects that can be read and whose bytes match their identifier.
  type ObjectStore = map<ObjectId, seq<Byte>>

  type Names = seq<Name>

  datatype Repository = Repository(store: ObjectStore, width: nat) {
    // The entries of a tree that reads and decodes.
    function Entries(tree: ObjectId): Option<seq<Entry>> {
      if tree in store then Decode(store[tree], width) else None
    }
  }

  // The path text of a node: its names joined by slashes.
  function Join(names: Names): seq<Byte> {
    if names == [] then []
    else if |names| == 1 then names[0]
    else Join(names[..|names| - 1]) + [SLASH] + names[|names| - 1]
  }

  function Extend(directory: seq<Byte>, name: Name): seq<Byte> {
    if directory != [] then directory + [SLASH] + name else name
  }

  // --- What the inventory should list -------------------------------------------------------

  // The entry a chain of names leads to from a tree.
  ghost predicate LeadsTo(r: Repository, tree: ObjectId, names: Names, e: Entry)
    decreases |names|
  {
    && names != [] && r.Entries(tree).Some?
    && exists k :: 0 <= k < |r.Entries(tree).value| && Through(r, r.Entries(tree).value[k], names, e)
  }

  ghost predicate Through(r: Repository, first: Entry, names: Names, e: Entry)
    requires names != []
    decreases |names|, 0
  {
    && first.name == names[0]
    && (if |names| == 1 then e == first else first.mode.Directory? && LeadsTo(r, first.id, names[1..], e))
  }

  // --- What makes a tree readable -----------------------------------------------------------

  // No tree object on the chain of open trees is met again, and every tree met decodes.
  ghost predicate Readable(r: Repository, tree: ObjectId, active: set<ObjectId>)
    decreases r.store.Keys - active
  {
    && tree !in active && r.Entries(tree).Some?
    && forall k :: 0 <= k < |r.Entries(tree).value| && r.Entries(tree).value[k].mode.Directory? ==>
                     Readable(r, r.Entries(tree).value[k].id, active + {tree})
  }

  ghost predicate ReadableAll(r: Repository, es: seq<Entry>, active: set<ObjectId>) {
    forall k :: 0 <= k < |es| && es[k].mode.Directory? ==> Readable(r, es[k].id, active)
  }

  // Tree b is a proper descendant of tree a.
  ghost predicate Below(r: Repository, a: ObjectId, b: ObjectId) {
    exists names, e :: LeadsTo(r, a, names, e) && e.mode.Directory? && e.id == b
  }

  ghost predicate ReachesOnlyGood(r: Repository, root: ObjectId) {
    forall t :: t == root || Below(r, root, t) ==> r.Entries(t).Some? && !Below(r, t, t)
  }

  lemma {:induction false} LeadsToComposes(r: Repository, a: ObjectId, outer: Names, d: Entry, inner: Names, e: Entry)
    requires LeadsTo(r, a, outer, d) && d.mode.Directory? && LeadsTo(r, d.id, inner, e)
    ensures LeadsTo(r, a, outer + inner, e)
    decreases |outer|
  {
    hide Decode;
    var k := FirstStep(r, a, outer, d);
    var first := r.Entries(a).value[k];
    var both := outer + inner;
    assert both[0] == outer[0] && both[1..] == outer[1..] + inner;
    if |outer| > 1 {
      LeadsToComposes(r, first.id, outer[1..], d, inner, e);
    } else {
      assert both[1..] == inner;
    }
    hide LeadsTo;
    assert Through(r, first, both, e);
    Steps(r, a, k, both, e);
  }

  lemma FirstStep(r: Repository, a: ObjectId, names: Names, e: Entry) returns (k: nat)
    requires LeadsTo(r, a, names, e)
    ensures names != [] && r.Entries(a).Some? && k < |r.Entries(a).value| && Through(r, r.Entries(a).value[k], names, e)
  {
    hide Decode;
    k :| 0 <= k < |r.Entries(a).value| && Through(r, r.Entries(a).value[k], names, e);
  }

  lemma Steps(r: Repository, a: ObjectId, k: nat, names: Names, e: Entry)
    requires names != [] && r.Entries(a).Some? && k < |r.Entries(a).value|
             && Through(r, r.Entries(a).value[k], names, e)
    ensures LeadsTo(r, a, names, e)
  {
    hide Decode;
  }

  lemma BelowTransitive(r: Repository, a: ObjectId, b: ObjectId, c: ObjectId)
    requires Below(r, a, b) && Below(r, b, c)
    ensures Below(r, a, c)
  {
    var outer, d :| LeadsTo(r, a, outer, d) && d.mode.Directory? && d.id == b;
    var inner, e :| LeadsTo(r, b, inner, e) && e.mode.Directory? && e.id == c;
    LeadsToComposes(r, a, outer, d, inner, e);
  }

  lemma ChildBelow(r: Repository, tree: ObjectId, k: nat)
    requires r.Entries(tree).Some? && k < |r.Entries(tree).value| && r.Entries(tree).value[k].mode.Directory?
    ensures Below(r, tree, r.Entries(tree).value[k].id)
  {
    var e := r.Entries(tree).value[k];
    assert Through(r, e, [e.name], e);
    assert LeadsTo(r, tree, [e.name], e);
  }

  // A readable tree hands its open chain down to everything below it.
  lemma {:induction false} ReadableBelow(r: Repository, tree: ObjectId, active: set<ObjectId>, names: Names, e: Entry)
    returns (deeper: set<ObjectId>)
    requires Readable(r, tree, active) && LeadsTo(r, tree, names, e) && e.mode.Directory?
    ensures active + {tree} <= deeper && Readable(r, e.id, deeper)
    decreases |names|
  {
    var es := r.Entries(tree).value;
    var k :| 0 <= k < |es| && Through(r, es[k], names, e);
    if |names| == 1 {
      deeper := active + {tree};
    } else {
      deeper := ReadableBelow(r, es[k].id, active + {tree}, names[1..], e);
    }
  }

  lemma {:induction false} GoodIsReadable(r: Repository, tree: ObjectId, active: set<ObjectId>)
    requires ReachesOnlyGood(r, tree)
    requires forall a :: a in active ==> Below(r, a, tree)
    ensures Readable(r, tree, active)
    decreases r.store.Keys - active
  {
    assert r.Entries(tree).Some? && tree !in active;
    var es := r.Entries(tree).value;
    forall k | 0 <= k < |es| && es[k].mode.Directory? ensures Readable(r, es[k].id, active + {tree}) {
      ChildBelow(r, tree, k);
      forall t | Below(r, es[k].id, t) ensures Below(r, tree, t) {
        BelowTransitive(r, tree, es[k].id, t);
      }
      forall a | a in active + {tree} ensures Below(r, a, es[k].id) {
        if a in active {
          BelowTransitive(r, a, tree, es[k].id);
        }
      }
      GoodIsReadable(r, es[k].id, active + {tree});
    }
  }

  /** A root is readable exactly when every tree reached decodes and none lies below itself. */
  lemma ReadableMeaning(r: Repository, root: ObjectId)
    ensures Readable(r, root, {}) <==> ReachesOnlyGood(r, root)
  {
    if Readable(r, root, {}) {
      forall t | t == root || Below(r, root, t) ensures r.Entries(t).Some? && !Below(r, t, t) {
        var active: set<ObjectId> := {};
        if t != root {
          var names, e :| LeadsTo(r, root, names, e) && e.mode.Directory? && e.id == t;
          active := ReadableBelow(r, root, {}, names, e);
        }
        if Below(r, t, t) {
          var names, e :| LeadsTo(r, t, names, e) && e.mode.Directory? && e.id == t;
          var deeper := ReadableBelow(r, t, active, names, e);
        }
      }
    } 
    if ReachesOnlyGood(r, root) {
      GoodIsReadable(r, root, {});
    }
  }

  // --- The order in which nodes are recorded ------------------------------------------------

  datatype Node = Node(names: Names, entry: Entry)

  ghost function Walk(r: Repository, tree: ObjectId, prefix: Names, active: set<ObjectId>): seq<Node>
    requires Readable(r, tree, active)
    decreases r.store.Keys - active, 1, 0
  {
    WalkEntries(r, r.Entries(tree).value, prefix, active + {tree}, tree)
  }

  ghost function WalkEntries(r: Repository, es: seq<Entry>, prefix: Names, open: set<ObjectId>,
                             tree: ObjectId): seq<Node>
    requires tree in open && tree in r.store && ReadableAll(r, es, open)
    decreases r.store.Keys - (open - {tree}), 0, |es|
  {
    if es == [] then []
    else
      var node := Node(prefix + [es[0].name], es[0]);
      [node]
      + (if es[0].mode.Directory? then Walk(r, es[0].id, node.names, open) else [])
      + WalkEntries(r, es[1..], prefix, open, tree)
  }

  // A node is walked below `prefix` exactly when its remaining names lead to its entry.
  lemma {:induction false} WalkIsExact(r: Repository, tree: ObjectId, prefix: Names, active: set<ObjectId>, node: Node)
    requires Readable(r, tree, active)
    ensures node in Walk(r, tree, prefix, active) <==>
            prefix < node.names && LeadsTo(r, tree, node.names[|prefix|..], node.entry)
    decreases r.store.Keys - active, 1, 0
  {
    WalkEntriesIsExact(r, r.Entries(tree).value, prefix, active + {tree}, tree, node);
  }

  ghost predicate LedByOne(r: Repository, es: seq<Entry>, prefix: Names, node: Node) {
    prefix < node.names && exists k :: 0 <= k < |es| && Through(r, es[k], node.names[|prefix|..], node.entry)
  }

  lemma {:induction false} WalkEntriesIsExact(r: Repository, es: seq<Entry>, prefix: Names, open: set<ObjectId>,
                                              tree: ObjectId, node: Node)
    requires tree in open && tree in r.store && ReadableAll(r, es, open)
    ensures node in WalkEntries(r, es, prefix, open, tree) <==> LedByOne(r, es, prefix, node)
    decreases r.store.Keys - (open - {tree}), 0, |es|
  {
    if es == [] {
    } else {
      var e, tail := es[0], es[1..];
      var here := Node(prefix + [e.name], e);
      WalkEntriesIsExact(r, tail, prefix, open, tree, node);
      if e.mode.Directory? {
        WalkIsExact(r, e.id, here.names, open, node);
      }
      ThroughFirst(r, e, prefix, node);
      assert LedByOne(r, es, prefix, node) <==>
             (prefix < node.names && Through(r, e, node.names[|prefix|..], node.entry))
             || LedByOne(r, tail, prefix, node)
      by {
        assert forall k :: 0 <= k < |tail| ==> tail[k] == es[k + 1];
        if LedByOne(r, es, prefix, node) {
          var k :| 0 <= k < |es| && Through(r, es[k], node.names[|prefix|..], node.entry);
          assert k > 0 ==> tail[k - 1] == es[k];
        }
      }
    }
  }

  // Passing through an entry: it is the node itself, or the node lies below it.
  lemma ThroughFirst(r: Repository, e: Entry, prefix: Names, node: Node)
    ensures (prefix < node.names && Through(r, e, node.names[|prefix|..], node.entry)) <==>
            (node == Node(prefix + [e.name], e)
             || (e.mode.Directory? && prefix + [e.name] < node.names
                 && LeadsTo(r, e.id, node.names[|prefix| + 1..], node.entry)))
  {
    if prefix < node.names {
      var rest := node.names[|prefix|..];
      assert node.names == prefix + rest && rest[1..] == node.names[|prefix| + 1..];
      assert |rest| == 1 ==> rest == [rest[0]];
      assert rest[0] == e.name && |rest| > 1 ==> prefix + [e.name] < node.names;
    }
  }

  // --- Distinct nodes have distinct paths -----------------------------------------------------

  ghost predicate SafeNames(names: Names) {
    names != [] && forall i :: 0 <= i < |names| ==> SafeName(names[i])
  }

  lemma EntriesAreSafe(r: Repository, tree: ObjectId)
    requires r.Entries(tree).Some?
    ensures SafeTree(r.Entries(tree).value, r.width)
  {
    hide Decode, Encode, SafeTree;
    DecodeInvertsEncode(r.store[tree], r.Entries(tree).value, r.width);
  }

  lemma {:induction false} LedNamesAreSafe(r: Repository, tree: ObjectId, names: Names, e: Entry)
    requires LeadsTo(r, tree, names, e)
    ensures SafeNames(names) && e.name == names[|names| - 1]
    decreases |names|
  {
    hide Decode, SafeName, LeadsTo;
    var k := FirstStep(r, tree, names, e);
    var first := r.Entries(tree).value[k];
    EntriesAreSafe(r, tree);
    assert SafeEntry(first, r.width);
    if |names| <= 1 {
    } else {
      LedNamesAreSafe(r, first.id, names[1..], e);
      assert names == [names[0]] + names[1..];
    }
  }

  // The names of one tree determine the entry.
  lemma {:induction false} LeadsToOne(r: Repository, tree: ObjectId, names: Names, a: Entry, b: Entry)
    requires LeadsTo(r, tree, names, a) && LeadsTo(r, tree, names, b)
    ensures a == b
    decreases |names|
  {
    var es := r.Entries(tree).value;
    DecodeInvertsEncode(r.store[tree], es, r.width);
    var i :| 0 <= i < |es| && Through(r, es[i], names, a);
    var j :| 0 <= j < |es| && Through(r, es[j], names, b);
    assert i == j;
    if |names| <= 1 {
    } else {
      LeadsToOne(r, es[i].id, names[1..], a, b);
    }
  }

  lemma {:induction false} LastSlash(names: Names)
    requires SafeNames(names)
    ensures Join(names) != []
    ensures |names| == 1 ==> SLASH !in Join(names)
    ensures |names| > 1 ==> SLASH in Join(names)
  {
    if |names| <= 1 {
    } else {
      LastSlash(names[..|names| - 1]);
      var head := Join(names[..|names| - 1]);
      assert Join(names)[|head|] == SLASH;
    }
  }

  lemma SplitAtLastSlash(a: seq<Byte>, x: Name, b: seq<Byte>, y: Name)
    requires a + [SLASH] + x == b + [SLASH] + y
    requires SLASH !in x && SLASH !in y
    ensures a == b && x == y
  {
    var s := a + [SLASH] + x;
    AfterSlash(a, x);
    AfterSlash(b, y);
    assert a == s[..|a|] && x == s[|a| + 1..];
  }

  lemma AfterSlash(a: seq<Byte>, x: Name)
    requires SLASH !in x
    ensures var s := a + [SLASH] + x;
            s[|a|] == SLASH && forall i :: |a| < i < |s| ==> s[i] != SLASH
  {
    var s := a + [SLASH] + x;
    assert forall i :: |a| < i < |s| ==> s[i] == x[i - |a| - 1];
  }

  lemma {:induction false} JoinInjective(a: Names, b: Names)
    requires SafeNames(a) && SafeNames(b) && Join(a) == Join(b)
    ensures a == b
    decreases |a|
  {
    LastSlash(a);
    LastSlash(b);
    if |a| > 1 {
      var m, n := |a| - 1, |b| - 1;
      SplitAtLastSlash(Join(a[..m]), a[m], Join(b[..n]), b[n]);
      JoinInjective(a[..m], b[..n]);
      assert a == a[..m] + [a[m]] && b == b[..n] + [b[n]];
    } else {
      assert a == [a[0]] && b == [b[0]];
    }
  }

  lemma JoinExtends(prefix: Names, name: Name)
    requires prefix == [] || SafeNames(prefix)
    ensures Join(prefix + [name]) == Extend(Join(prefix), name)
  {
    if prefix != [] {
      LastSlash(prefix);
      assert (prefix + [name])[..|prefix|] == prefix;
    }
  }

  // --- The reader --------------------------------------------------------------------------------

  // What the recorded nodes leave in the two collections.
  ghost predicate Records(log: seq<Node>, tracked: map<seq<Byte>, (Mode, ObjectId)>, directories: set<seq<Byte>>) {
    && (forall p :: p in directories <==>
                    exists i :: 0 <= i < |log| && log[i].entry.mode.Directory? && Join(log[i].names) == p)
    && (forall p :: p in tracked ==>
                    exists i :: 0 <= i < |log| && !log[i].entry.mode.Directory? && Join(log[i].names) == p
                                && tracked[p] == (log[i].entry.mode, log[i].entry.id))
    && (forall i :: 0 <= i < |log| && !log[i].entry.mode.Directory? ==> Join(log[i].names) in tracked)
  }

  lemma RecordsAppend(log: seq<Node>, tracked: map<seq<Byte>, (Mode, ObjectId)>, directories: set<seq<Byte>>,
                      node: Node)
    requires Records(log, tracked, directories)
    ensures node.entry.mode.Directory? ==> Records(log + [node], tracked, directories + {Join(node.names)})
    ensures !node.entry.mode.Directory? ==>
              Records(log + [node], tracked[Join(node.names) := (node.entry.mode, node.entry.id)], directories)
  {
    var longer := log + [node];
    assert longer[|log|] == node && forall i :: 0 <= i < |log| ==> longer[i] == log[i];
  }

  class TreeReader {
    const repository: Repository
    var tracked: map<seq<Byte>, (Mode, ObjectId)>
    var directories: set<seq<Byte>>
    var active: set<ObjectId>
    ghost var log: seq<Node>

    constructor (r: Repository)
      ensures repository == r && active == {} && log == [] && Records(log, tracked, directories)
    {
      repository := r;
      tracked, directories, active, log := map[], {}, {}, [];
    }

    // One tree entry goes into the collection for its kind.
    method Record(entry: Entry, relative: seq<Byte>, ghost names: Names)
      requires Records(log, tracked, directories) && relative == Join(names)
      modifies `tracked, `directories, `log
      ensures log == old(log) + [Node(names, entry)] && Records(log, tracked, directories)
    {
      RecordsAppend(log, tracked, directories, Node(names, entry));
      log := log + [Node(names, entry)];
      if entry.mode.Directory? {
        directories := directories + {relative};
      } else {
        tracked := tracked[relative := (entry.mode, entry.id)];
      }
    }

    // `prefix` holds the names whose joined text is the relative directory.
    method ReadTree(tree: ObjectId, directory: seq<Byte>, ghost prefix: Names) returns (ok: bool)
      requires Records(log, tracked, directories)
      requires directory == Join(prefix) && (prefix == [] || SafeNames(prefix))
      modifies this
      ensures active == old(active)
      ensures ok <==> Readable(repository, tree, old(active))
      ensures ok ==> log == old(log) + Walk(repository, tree, prefix, old(active))
      ensures ok ==> Records(log, tracked, directories)
      decreases repository.store.Keys - active
    {
      hide Records, DecodeEntry, Join, Decode, Find, Readable, ReadableAll, WalkEntries, SafeEntry, EncodeEntry;
      ReadableUnfolds(repository, tree, active);
      if tree in active || tree !in repository.store {
        return false;
      }
      active := active + {tree};
      var content := repository.store[tree];
      var cursor := 0;
      var names: set<Name> := {};
      ghost var done: seq<Entry> := [];
      ghost var decoded := repository.Entries(tree);
      ghost var start := log;
      DecodingStarts(repository, tree);
      WalkNothing(repository, prefix, active, tree);
      while cursor < |content|
        invariant cursor <= |content|
        invariant active == old(active) + {tree}
        invariant decoded == Concat(done, DecodeFrom(content, cursor, names, repository.width))
        invariant ReadableAll(repository, done, active)
        invariant log == start + WalkEntries(repository, done, prefix, active, tree)
        invariant Records(log, tracked, directories)
        decreases |content| - cursor
      {
        var next := DecodeEntry(content, cursor, repository.width);
        if next.None? || next.value.0.name in names {
          active := active - {tree};
          return false;
        }
        var entry, end := next.value.0, next.value.1;
        ConcatStep(done, entry, DecodeFrom(content, end, names + {entry.name}, repository.width));
        NamesStaySafe(content, cursor, repository.width, prefix);
        cursor, names := end, names + {entry.name};
        JoinExtends(prefix, entry.name);
        Record(entry, Extend(directory, entry.name), prefix + [entry.name]);
        if entry.mode.Directory? {
          var readable := ReadTree(entry.id, Extend(directory, entry.name), prefix + [entry.name]);
          if !readable {
            UnreadableChild(repository, decoded, done, entry, DecodeFrom(content, cursor, names, repository.width),
                            active);
            active := active - {tree};
            return false;
          }
        }
        ReadableAllSnoc(repository, done, entry, active);
        WalkSnoc(repository, done, entry, prefix, active, tree);
        done := done + [entry];
      }
      assert done + [] == done;
      active := active - {tree};
      return true;
    }
  }

  lemma ReadableUnfolds(r: Repository, tree: ObjectId, active: set<ObjectId>)
    ensures Readable(r, tree, active) <==>
            tree !in active && r.Entries(tree).Some? && ReadableAll(r, r.Entries(tree).value, active + {tree})
  {
  }

  lemma WalkNothing(r: Repository, prefix: Names, open: set<ObjectId>, tree: ObjectId)
    requires tree in open && tree in r.store
    ensures ReadableAll(r, [], open) && WalkEntries(r, [], prefix, open, tree) == []
  {
  }

  lemma UnreadableChild(r: Repository, decoded: Option<seq<Entry>>, done: seq<Entry>, e: Entry,
                        rest: Option<seq<Entry>>, active: set<ObjectId>)
    requires decoded == Concat(done + [e], rest)
    requires e.mode.Directory? && !Readable(r, e.id, active)
    ensures decoded.Some? ==> !ReadableAll(r, decoded.value, active)
  {
    if decoded.Some? {
      assert decoded.value[|done|] == e;
    }
  }

  lemma NamesStaySafe(bytes: seq<Byte>, cursor: nat, width: nat, prefix: Names)
    requires DecodeEntry(bytes, cursor, width).Some? && (prefix == [] || SafeNames(prefix))
    ensures SafeNames(prefix + [DecodeEntry(bytes, cursor, width).value.0.name])
  {
    DecodedEntryEncodes(bytes, cursor, width);
  }

  lemma DecodingStarts(r: Repository, tree: ObjectId)
    requires tree in r.store
    ensures r.Entries(tree) == Concat([], DecodeFrom(r.store[tree], 0, {}, r.width))
  {
    if r.Entries(tree).Some? {
      assert [] + r.Entries(tree).value == r.Entries(tree).value;
    }
  }

  lemma ReadableAllSnoc(r: Repository, es: seq<Entry>, e: Entry, active: set<ObjectId>)
    ensures ReadableAll(r, es + [e], active) <==>
            ReadableAll(r, es, active) && (e.mode.Directory? ==> Readable(r, e.id, active))
  {
    assert (es + [e])[|es|] == e && forall k :: 0 <= k < |es| ==> (es + [e])[k] == es[k];
  }

  lemma {:induction false} WalkSnoc(r: Repository, es: seq<Entry>, e: Entry, prefix: Names, open: set<ObjectId>,
                                    tree: ObjectId)
    requires tree in open && tree in r.store && ReadableAll(r, es, open) && ReadableAll(r, es + [e], open)
    requires e.mode.Directory? ==> Readable(r, e.id, open)
    ensures WalkEntries(r, es + [e], prefix, open, tree) ==
            WalkEntries(r, es, prefix, open, tree) + [Node(prefix + [e.name], e)]
            + (if e.mode.Directory? then Walk(r, e.id, prefix + [e.name], open) else [])
    decreases |es|
  {
    hide Readable, Walk;
    if es == [] {
      assert [e][1..] == [] && ([] + [e])[0] == e;
    } else {
      var tail := es[1..];
      assert (es + [e])[0] == es[0] && (es + [e])[1..] == tail + [e];
      TailReadable(r, es, open);
      TailReadable(r, es + [e], open);
      WalkSnoc(r, tail, e, prefix, open, tree);
      hide ReadableAll;
      var first := [Node(prefix + [es[0].name], es[0])]
                   + (if es[0].mode.Directory? then Walk(r, es[0].id, prefix + [es[0].name], open) else []);
      var last := (if e.mode.Directory? then Walk(r, e.id, prefix + [e.name], open) else []);
      assert WalkEntries(r, es + [e], prefix, open, tree) == first + WalkEntries(r, tail + [e], prefix, open, tree);
      assert WalkEntries(r, es, prefix, open, tree) == first + WalkEntries(r, tail, prefix, open, tree);
    }
  }

  lemma TailReadable(r: Repository, es: seq<Entry>, open: set<ObjectId>)
    requires es != [] && ReadableAll(r, es, open)
    ensures ReadableAll(r, es[1..], open) && (es[0].mode.Directory? ==> Readable(r, es[0].id, open))
  {
    hide Readable;
    assert forall k :: 0 <= k < |es[1..]| ==> es[1..][k] == es[k + 1];
  }

  // Some chain of names from the root leads to a directory, or to this file, whose path is p.
  ghost predicate DirectoryAt(r: Repository, root: ObjectId, p: seq<Byte>) {
    exists names, e :: LeadsTo(r, root, names, e) && e.mode.Directory? && Join(names) == p
  }

  ghost predicate FileAt(r: Repository, root: ObjectId, p: seq<Byte>, mode: Mode, id: ObjectId) {
    exists names, e :: LeadsTo(r, root, names, e) && e.mode == mode != Directory && e.id == id && Join(names) == p
  }

  /** The whole inventory: exactly the root-to-node paths, files and directories apart. */
  method Inventory(r: Repository, root: ObjectId)
    returns (result: Option<(map<seq<Byte>, (Mode, ObjectId)>, set<seq<Byte>>)>)
    ensures result.Some? <==> ReachesOnlyGood(r, root)
    ensures result.Some? ==>
              var (tracked, directories) := result.value;
              && (forall p :: p in directories <==> DirectoryAt(r, root, p))
              && (forall p, m, id :: p in tracked && tracked[p] == (m, id) <==> FileAt(r, root, p, m, id))
              && tracked.Keys !! directories
  {
    ReadableMeaning(r, root);
    var reader := new TreeReader(r);
    var ok := reader.ReadTree(root, [], []);
    if !ok {
      return None;
    }
    RecordsAreExact(r, root, reader.log, reader.tracked, reader.directories);
    return Some((reader.tracked, reader.directories));
  }

  lemma RecordsAreExact(r: Repository, root: ObjectId, log: seq<Node>,
                        tracked: map<seq<Byte>, (Mode, ObjectId)>, directories: set<seq<Byte>>)
    requires Readable(r, root, {}) && log == Walk(r, root, [], {}) && Records(log, tracked, directories)
    ensures forall p :: p in directories <==> DirectoryAt(r, root, p)
    ensures forall p, m, id :: p in tracked && tracked[p] == (m, id) <==> FileAt(r, root, p, m, id)
    ensures tracked.Keys !! directories
  {
    hide Decode;
    forall i | 0 <= i < |log| ensures LeadsTo(r, root, log[i].names, log[i].entry) {
      assert log[i] in log;
      WalkIsExact(r, root, [], {}, log[i]);
      assert log[i].names[0..] == log[i].names;
    }
    forall names, e | LeadsTo(r, root, names, e) ensures Node(names, e) in log {
      WalkIsExact(r, root, [], {}, Node(names, e));
      assert names[0..] == names;
    }
    forall p ensures p in directories <==> DirectoryAt(r, root, p) {
      if DirectoryAt(r, root, p) {
        var names, e :| LeadsTo(r, root, names, e) && e.mode.Directory? && Join(names) == p;
        assert Node(names, e) in log;
      }
    }
    forall p, m, id ensures p in tracked && tracked[p] == (m, id) <==> FileAt(r, root, p, m, id) {
      if FileAt(r, root, p, m, id) {
        var names, e :| LeadsTo(r, root, names, e) && e.mode == m != Directory && e.id == id && Join(names) == p;
        assert Node(names, e) in log;
        var i :| 0 <= i < |log| && !log[i].entry.mode.Directory? && Join(log[i].names) == p
                 && tracked[p] == (log[i].entry.mode, log[i].entry.id);
        SamePathSameNode(r, root, names, e, log[i].names, log[i].entry);
      }
    }
    forall p | p in tracked && p in directories ensures false {
      var names, e :| LeadsTo(r, root, names, e) && e.mode.Directory? && Join(names) == p;
      var i :| 0 <= i < |log| && !log[i].entry.mode.Directory? && Join(log[i].names) == p;
      SamePathSameNode(r, root, names, e, log[i].names, log[i].entry);
    }
  }

  // Distinct nodes never share a path.
  lemma SamePathSameNode(r: Repository, root: ObjectId, a: Names, x: Entry, b: Names, y: Entry)
    requires LeadsTo(r, root, a, x) && LeadsTo(r, root, b, y) && Join(a) == Join(b)
    ensures a == b && x == y
  {
    LedNamesAreSafe(r, root, a, x);
    LedNamesAreSafe(r, root, b, y);
    JoinInjective(a, b);
    LeadsToOne(r, root, a, x, y);
  }
}
