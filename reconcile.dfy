/** The local list updates the list pages apply after a successful edit or
    delete: `prev.map(t => t.id === id ? data : t)` and
    `prev.filter(t => t.id !== id)`. */
module Reconcile {
  import opened Api

  /** Every row whose id is `id` replaced by `x`, in place. */
  function ReplaceById(rows: seq<Row>, id: Id, x: Row): (r: seq<Row>)
    ensures |r| == |rows|
    ensures forall i :: 0 <= i < |rows| && rows[i].id == id ==> r[i] == x
    ensures forall i :: 0 <= i < |rows| && rows[i].id != id ==> r[i] == rows[i]
  {
    if rows == [] then []
    else [if rows[0].id == id then x else rows[0]] + ReplaceById(rows[1..], id, x)
  }

  /** The rows whose id is not `id`, in their order. */
  function RemoveById(rows: seq<Row>, id: Id): (r: seq<Row>)
    ensures |r| <= |rows|
    ensures forall i :: 0 <= i < |r| ==> r[i].id != id
  {
    if rows == [] then []
    else (if rows[0].id == id then [] else [rows[0]]) + RemoveById(rows[1..], id)
  }

  /** A row survives the delete exactly when it was in the list and its id
      is not the deleted one. */
  lemma {:induction false} RemoveByIdMembers(rows: seq<Row>, id: Id)
    ensures forall t :: t in RemoveById(rows, id) <==> t in rows && t.id != id
  {
    if rows != [] {
      RemoveByIdMembers(rows[1..], id);
      assert rows == [rows[0]] + rows[1..];
    }
  }

  /** No two rows share an id (the server's ids are unique). */
  predicate UniqueIds(rows: seq<Row>) {
    forall i, j :: 0 <= i < j < |rows| ==> rows[i].id != rows[j].id
  }

  /** Filtering distributes over concatenation: it keeps the relative order
      of the rows that stay. */
  lemma {:induction false} RemoveByIdConcat(a: seq<Row>, b: seq<Row>, id: Id)
    ensures RemoveById(a + b, id) == RemoveById(a, id) + RemoveById(b, id)
  {
    if a == [] {
      assert a + b == b;
    } else {
      assert (a + b)[1..] == a[1..] + b;
      RemoveByIdConcat(a[1..], b, id);
    }
  }

  /** Removing an id that no row has leaves the list as it is. */
  lemma {:induction false} RemoveAbsentId(rows: seq<Row>, id: Id)
    requires forall i :: 0 <= i < |rows| ==> rows[i].id != id
    ensures RemoveById(rows, id) == rows
  {
    if rows != [] {
      RemoveAbsentId(rows[1..], id);
    }
  }

  /** The first step of the filter: the head row stays unless it has the id. */
  lemma RemoveByIdCons(x: Row, rest: seq<Row>, id: Id)
    ensures RemoveById([x] + rest, id) == (if x.id == id then [] else [x]) + RemoveById(rest, id)
  {
    assert ([x] + rest)[1..] == rest;
  }

  /** When row `k` is the only one with its id, deleting that id removes
      exactly that row and no other, and keeps the order of the rest. */
  lemma {:induction false} RemoveOnlyRow(rows: seq<Row>, k: nat)
    requires k < |rows|
    requires forall i :: 0 <= i < |rows| && i != k ==> rows[i].id != rows[k].id
    ensures RemoveById(rows, rows[k].id) == rows[..k] + rows[k + 1..]
  {
    var id, rest := rows[k].id, rows[1..];
    assert rows == [rows[0]] + rest;
    RemoveByIdCons(rows[0], rest, id);
    if k == 0 {
      forall i | 0 <= i < |rest| ensures rest[i].id != id {
        assert rest[i] == rows[i + 1];
      }
      RemoveAbsentId(rest, id);
    } else {
      forall i | 0 <= i < |rest| && i != k - 1 ensures rest[i].id != rest[k - 1].id {
        assert rest[i] == rows[i + 1];
      }
      RemoveOnlyRow(rest, k - 1);
      assert rows[..k] + rows[k + 1..] == [rows[0]] + (rest[..k - 1] + rest[k..]);
    }
  }

  /** When row `k` is the only one with `id`, the edit replaces that row
      alone, in its place. */
  lemma ReplaceOnlyRow(rows: seq<Row>, k: nat, id: Id, x: Row)
    requires k < |rows| && rows[k].id == id
    requires forall i :: 0 <= i < |rows| && i != k ==> rows[i].id != id
    ensures ReplaceById(rows, id, x) == rows[k := x]
  {
    var r := ReplaceById(rows, id, x);
    assert forall i :: 0 <= i < |rows| ==> r[i] == rows[k := x][i];
  }

  /** Deleting keeps the ids unique. */
  lemma {:induction false} RemovePreservesUniqueIds(rows: seq<Row>, id: Id)
    requires UniqueIds(rows)
    ensures UniqueIds(RemoveById(rows, id))
  {
    if rows != [] {
      RemovePreservesUniqueIds(rows[1..], id);
      var rest := RemoveById(rows[1..], id);
      RemoveByIdMembers(rows[1..], id);
      forall t | t in rest ensures t.id != rows[0].id {
        var i :| 0 <= i < |rows[1..]| && rows[1..][i] == t;
        assert rows[i + 1] == t;
      }
    }
  }

  /** Replacing the row of `id` with a response that carries the same id
      keeps the ids unique. */
  lemma ReplacePreservesUniqueIds(rows: seq<Row>, id: Id, x: Row)
    requires UniqueIds(rows)
    requires x.id == id
    ensures UniqueIds(ReplaceById(rows, id, x))
  {
    var r := ReplaceById(rows, id, x);
    forall i, j | 0 <= i < j < |r| ensures r[i].id != r[j].id {
      assert r[i].id == rows[i].id && r[j].id == rows[j].id;
    }
  }
}
