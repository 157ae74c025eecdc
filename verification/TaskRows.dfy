/** The durable rows of the A2A server's tasks. */
module TaskRows {
  import opened Dag
  import opened Wire

  /** A row; `created` places it among the others and never changes. */
  datatype Row = Row(contextId: string, state: string, created: nat, body: Json)

  type Table = map<string, Row>

  /** `ids` lists the rows from the oldest to the newest. */
  ghost predicate ByAge(table: Table, ids: seq<string>) {
    && Lists(ids, table.Keys)
    && forall i, j :: 0 <= i < j < |ids| ==> table[ids[i]].created < table[ids[j]].created
  }

  ghost predicate IsNewest(table: Table, n: nat) {
    && (forall id :: id in table ==> table[id].created <= n)
    && (table != map[] ==> exists id :: id in table && table[id].created == n)
    && (table == map[] ==> n == 0)
  }

  /** The largest creation number in use; zero when there is none. */
  ghost function Newest(table: Table): (n: nat)
    ensures IsNewest(table, n)
  {
    if table == map[] then 0
    else
      var id :| id in table;
      var n := Newest(table - {id});
      LargerIsNewest(table, id, n);
      if n < table[id].created then table[id].created else n
  }

  lemma LargerIsNewest(table: Table, id: string, n: nat)
    requires id in table && IsNewest(table - {id}, n)
    ensures IsNewest(table, if n < table[id].created then table[id].created else n)
  {
    var less := table - {id};
    assert forall other :: other in table ==> other == id || (other in less && less[other] == table[other]);
    if less != map[] {
      var other :| other in less && less[other].created == n;
      assert table[other].created == n;
    }
  }

  /** Insert a row behind all the others, or update one where it stands. */
  ghost function Saved(table: Table, id: string, contextId: string, state: string, body: Json): Table {
    var created := if id in table then table[id].created else Newest(table) + 1;
    table[id := Row(contextId, state, created, body)]
  }

  function Bodies(table: Table, ids: seq<string>): seq<Json>
    requires forall id :: id in ids ==> id in table
  {
    seq(|ids|, i requires 0 <= i < |ids| => table[ids[i]].body)
  }

  function Last<T>(s: seq<T>, limit: nat): seq<T> {
    if |s| <= limit then s else s[|s| - limit..]
  }

  /** A new row is the newest; a saved one keeps its place. */
  lemma SavedByAge(table: Table, ids: seq<string>, id: string, contextId: string, state: string, body: Json)
    requires ByAge(table, ids)
    ensures ByAge(Saved(table, id, contextId, state, body), if id in table then ids else ids + [id])
  {
    var after := Saved(table, id, contextId, state, body);
    if id in table {
      assert after.Keys == table.Keys;
    } else {
      assert after.Keys == table.Keys + {id};
      ListsAppend(ids, table.Keys, id);
      forall i, j | 0 <= i < j < |ids + [id]|
        ensures after[(ids + [id])[i]].created < after[(ids + [id])[j]].created
      {
        assert ids[i] in table;
      }
    }
  }

  lemma {:induction false} AgeOrderUnique(table: Table, a: seq<string>, b: seq<string>)
    requires ByAge(table, a) && ByAge(table, b)
    ensures a == b
    decreases |a|
  {
    hide ByAge;
    NoRowsNoIds(table, a);
    NoRowsNoIds(table, b);
    if a != [] {
      LastsAgree(table, a, b);
      var x := a[|a| - 1];
      ByAgeWithoutLast(table, a);
      ByAgeWithoutLast(table, b);
      AgeOrderUnique(table - {x}, a[..|a| - 1], b[..|b| - 1]);
      assert a == a[..|a| - 1] + [x];
      assert b == b[..|b| - 1] + [x];
    }
  }

  lemma NoRowsNoIds(table: Table, ids: seq<string>)
    requires ByAge(table, ids)
    ensures table == map[] <==> ids == []
  {
    if ids != [] {
      assert ids[0] in ids;
    }
    if table != map[] {
      var id :| id in table;
      assert id in ids;
    }
  }

  lemma LastsAgree(table: Table, a: seq<string>, b: seq<string>)
    requires ByAge(table, a) && ByAge(table, b) && a != [] && b != []
    ensures a[|a| - 1] == b[|b| - 1]
  {
    assert a[|a| - 1] in a && b[|b| - 1] in b;
    LastIsNewest(table, a, b[|b| - 1]);
    LastIsNewest(table, b, a[|a| - 1]);
  }

  lemma LastIsNewest(table: Table, ids: seq<string>, id: string)
    requires ByAge(table, ids) && id in table
    ensures ids != [] && (id == ids[|ids| - 1] || table[id].created < table[ids[|ids| - 1]].created)
  {
    assert id in ids;
    var i :| 0 <= i < |ids| && ids[i] == id;
  }

  lemma ByAgeWithoutLast(table: Table, ids: seq<string>)
    requires ByAge(table, ids) && ids != []
    ensures ByAge(table - {ids[|ids| - 1]}, ids[..|ids| - 1])
  {
    var last := |ids| - 1;
    assert ids == ids[..last] + [ids[last]];
    assert forall id :: id in ids <==> id in ids[..last] || id == ids[last];
  }

  /** The rows not yet read are the oldest `k`. */
  ghost predicate Remaining(rows: Table, ids: seq<string>, left: Table, k: nat) {
    && k <= |ids|
    && (forall id :: id in ids ==> id in rows)
    && (forall id :: id in left ==> id in rows && left[id] == rows[id])
    && ByAge(left, ids[..k])
  }

  lemma NewestRemaining(rows: Table, ids: seq<string>, left: Table, k: nat)
    requires Remaining(rows, ids, left, k) && left != map[]
    ensures k > 0 && ids[k - 1] in left
    ensures IsLatest(left, ids[k - 1])
  {
    NoRowsNoIds(left, ids[..k]);
    var last := ids[..k][k - 1];
    assert last in ids[..k];
    forall other | other in left
      ensures left[other].created <= left[last].created
    {
      LastIsNewest(left, ids[..k], other);
    }
  }

  predicate IsLatest(left: Table, id: string) {
    id in left && forall other :: other in left ==> left[other].created <= left[id].created
  }

  lemma NewestTaken(rows: Table, ids: seq<string>, left: Table, k: nat, id: string)
    requires Remaining(rows, ids, left, k) && IsLatest(left, id)
    ensures k > 0 && id == ids[k - 1] && id in rows && left[id] == rows[id]
    ensures Remaining(rows, ids, left - {id}, k - 1)
  {
    hide ByAge;
    assert left != map[];
    NewestRemaining(rows, ids, left, k);
    LastIsNewest(left, ids[..k], id);
    ByAgeWithoutLast(left, ids[..k]);
    assert ids[..k][..k - 1] == ids[..k - 1];
  }

  lemma BodiesGrow(rows: Table, ids: seq<string>, k: nat)
    requires 0 < k <= |ids| && forall id :: id in ids ==> id in rows
    ensures Bodies(rows, ids[k - 1..]) == [rows[ids[k - 1]].body] + Bodies(rows, ids[k..])
  {
    assert ids[k - 1..] == [ids[k - 1]] + ids[k..];
  }

  ghost predicate Loading(rows: Table, ids: seq<string>, left: Table, taken: nat, bodies: seq<Json>) {
    && taken <= |ids|
    && Remaining(rows, ids, left, |ids| - taken)
    && bodies == Bodies(rows, ids[|ids| - taken..])
  }

  lemma LoadStarts(rows: Table, ids: seq<string>)
    requires ByAge(rows, ids)
    ensures Loading(rows, ids, rows, 0, [])
  {
    assert ids[..|ids|] == ids;
  }

  lemma LoadGrows(rows: Table, ids: seq<string>, left: Table, taken: nat, bodies: seq<Json>, id: string)
    requires Loading(rows, ids, left, taken, bodies) && IsLatest(left, id)
    ensures Loading(rows, ids, left - {id}, taken + 1, [left[id].body] + bodies)
  {
    hide Bodies; hide ByAge;
    NewestTaken(rows, ids, left, |ids| - taken, id);
    BodiesGrow(rows, ids, |ids| - taken);
  }

  lemma LoadEnds(rows: Table, ids: seq<string>, left: Table, taken: nat, bodies: seq<Json>, limit: nat)
    requires Loading(rows, ids, left, taken, bodies) && taken <= limit
    requires left == map[] || taken == limit
    ensures (forall id :: id in Last(ids, limit) ==> id in rows) && bodies == Bodies(rows, Last(ids, limit))
  {
    if left == map[] {
      NoRowsNoIds(left, ids[..|ids| - taken]);
      assert ids[|ids| - taken..] == ids;
    }
  }

  class TaskStore {
    var rows: Table

    constructor ()
      ensures rows == map[]
    {
      rows := map[];
    }

    method LargestCreated() returns (n: nat)
      ensures n == Newest(rows)
    {
      n := 0;
      var left := rows.Keys;
      while left != {}
        invariant left <= rows.Keys
        invariant forall id :: id in rows && id !in left ==> rows[id].created <= n
        invariant n == 0 || exists id :: id in rows && rows[id].created == n
        decreases left
      {
        var id :| id in left;
        if n < rows[id].created {
          n := rows[id].created;
        }
        left := left - {id};
      }
      assert IsNewest(rows, Newest(rows));
    }

    /** Save a task, replacing any earlier version of it. */
    method Save(id: string, contextId: string, state: string, body: Json)
      modifies this
      ensures rows == Saved(old(rows), id, contextId, state, body)
    {
      if id in rows {
        rows := rows[id := Row(contextId, state, rows[id].created, body)];
      } else {
        var newest := LargestCreated();
        rows := rows[id := Row(contextId, state, newest + 1, body)];
      }
    }

    /** The newest `limit` bodies, oldest first. */
    method Load(limit: nat, ghost ids: seq<string>) returns (bodies: seq<Json>)
      requires ByAge(rows, ids)
      ensures bodies == Bodies(rows, Last(ids, limit))
    {
      bodies := [];
      var left, taken := rows, 0;
      LoadStarts(rows, ids);
      hide *;
      while left != map[] && taken < limit
        invariant taken <= limit
        invariant Loading(rows, ids, left, taken, bodies)
        decreases limit - taken
      {
        NewestRemaining(rows, ids, left, |ids| - taken);
        var id :| id in left && IsLatest(left, id);
        LoadGrows(rows, ids, left, taken, bodies, id);
        bodies := [left[id].body] + bodies;
        left := left - {id};
        taken := taken + 1;
      }
      LoadEnds(rows, ids, left, taken, bodies, limit);
    }

    /** Forget a task. */
    method Remove(id: string)
      modifies this
      ensures rows == old(rows) - {id}
    {
      rows := rows - {id};
    }
  }
}
