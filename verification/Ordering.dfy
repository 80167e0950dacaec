/** SQL `ORDER BY` over a table keyed by its row id: two columns, then the id. */
module Ordering {
  import opened Common

  type Key = (int, int)

  predicate Precedes(rows: map<int, Key>, a: int, b: int)
    requires a in rows && b in rows
  {
    var x, y := rows[a], rows[b];
    x.0 < y.0 || (x.0 == y.0 && (x.1 < y.1 || (x.1 == y.1 && a < b)))
  }

  predicate Ordered(rows: map<int, Key>, ids: seq<int>) {
    (forall i :: 0 <= i < |ids| ==> ids[i] in rows)
    && (forall i, j :: 0 <= i < j < |ids| ==> Precedes(rows, ids[i], ids[j]))
  }

  // The least row of a non-empty selection.
  method First(rows: map<int, Key>, selected: set<int>) returns (least: int)
    requires selected != {}
    requires forall id <- selected :: id in rows
    ensures least in selected && forall id <- selected :: id == least || Precedes(rows, least, id)
  {
    Inhabited(selected);
    least :| least in selected;
    var rest := selected - {least};
    while rest != {}
      invariant rest <= selected && least in selected
      invariant forall k :: k in selected && k !in rest ==> k == least || Precedes(rows, least, k)
      decreases rest
    {
      Inhabited(rest);
      var id :| id in rest;
      if Precedes(rows, id, least) {
        least := id;
      }
      rest := rest - {id};
    }
  }

  method OrderBy(rows: map<int, Key>) returns (ids: seq<int>)
    ensures Ordered(rows, ids) && forall id :: id in rows <==> id in ids
    ensures forall i, j :: 0 <= i < j < |ids| ==> ids[i] != ids[j]
  {
    ids := [];
    var rest := rows.Keys;
    while rest != {}
      invariant rest <= rows.Keys && Ordered(rows, ids)
      invariant forall id :: id in rows <==> id in ids || id in rest
      invariant forall i :: 0 <= i < |ids| ==> forall id <- rest :: Precedes(rows, ids[i], id)
      decreases rest
    {
      var next := First(rows, rest);
      ids, rest := ids + [next], rest - {next};
    }
  }

  predicate Increasing(ids: seq<int>) {
    forall i, j :: 0 <= i < j < |ids| ==> ids[i] < ids[j]
  }

  // ORDER BY the primary key.
  method Ascending(keys: set<int>) returns (ids: seq<int>)
    ensures Increasing(ids) && forall id :: id in ids <==> id in keys
  {
    var rows := map id | id in keys :: (0, 0);
    ids := OrderBy(rows);
    assert forall i, j :: 0 <= i < j < |ids| ==> Precedes(rows, ids[i], ids[j]);
  }

  // ORDER BY the primary key DESC LIMIT 1
  method Newest(keys: set<int>) returns (newest: Option<int>)
    ensures newest.None? <==> keys == {}
    ensures newest.Some? ==> newest.value in keys && forall id <- keys :: id <= newest.value
  {
    var ids := Ascending(keys);
    if ids == [] {
      Inhabited(keys);
      return None;
    }
    var last := |ids| - 1;
    assert ids[last] in ids;
    newest := Some(ids[last]);
  }

  // There is one ascending listing of a set of keys.
  lemma {:induction false} OneListing(a: seq<int>, b: seq<int>)
    requires Increasing(a) && Increasing(b) && forall id :: id in a <==> id in b
    ensures a == b
    decreases |a|
  {
    assert b != [] ==> b[0] in b;
    if a == [] {
    } else {
      var x := a[0];
      assert x in b;
      var y := b[0];
      assert y in a;
      assert x == y;
      forall id ensures id in a[1..] <==> id in b[1..] {
        assert id in a[1..] <==> id in a && id != x;
        assert id in b[1..] <==> id in b && id != x;
      }
      OneListing(a[1..], b[1..]);
      assert a == [x] + a[1..] && b == [x] + b[1..];
    }
  }
}
