/** A database table as the services see it through their ORM sessions: a map from primary
    key to record, the order in which a plain `SELECT` scans the rows (insertion order), and
    the autoincrement sequence that numbers new rows. Every service's tables are `Table`s. */
module Tables {
  import opened Seqs

  /** A persisted record together with its primary key. */
  datatype Row<F> = Row(id: int, data: F)

  ghost predicate NoDuplicates(s: seq<int>) {
    forall i, j :: 0 <= i < j < |s| ==> s[i] != s[j]
  }

  /** The rows listed in `order`. */
  function RowsIn<F>(order: seq<int>, rows: map<int, F>): (r: seq<Row<F>>)
    requires forall i :: 0 <= i < |order| ==> order[i] in rows
    ensures |r| == |order|
    ensures forall i :: 0 <= i < |order| ==> r[i] == Row(order[i], rows[order[i]])
  {
    seq(|order|, i requires 0 <= i < |order| => Row(order[i], rows[order[i]]))
  }

  /** The ids of some rows. */
  function RowIds<F>(rows: seq<Row<F>>): (r: set<int>)
    ensures forall k :: k in r <==> exists i :: 0 <= i < |rows| && rows[i].id == k
  {
    if rows == [] then {}
    else
      var prefix := rows[..|rows| - 1];
      assert forall i :: 0 <= i < |prefix| ==> prefix[i] == rows[i];
      RowIds(prefix) + {rows[|rows| - 1].id}
  }

  /** No two of the rows share a primary key. */
  ghost predicate DistinctIds<F>(rows: seq<Row<F>>) {
    forall i, j :: 0 <= i < j < |rows| ==> rows[i].id != rows[j].id
  }

  /** Rows with distinct keys have as many keys as rows. */
  lemma {:induction false} RowIdsCount<F>(rows: seq<Row<F>>)
    requires DistinctIds(rows)
    ensures |RowIds(rows)| == |rows|
  {
    if rows != [] {
      var prefix := rows[..|rows| - 1];
      var last := rows[|rows| - 1];
      assert forall i :: 0 <= i < |prefix| ==> prefix[i] == rows[i];
      RowIdsCount(prefix);
      assert last.id !in RowIds(prefix);
      assert RowIds(rows) == RowIds(prefix) + {last.id};
    }
  }

  /** A `WHERE` filter over rows with distinct keys keeps them distinct. */
  lemma {:induction false} FilterKeepsIdsDistinct<F>(s: seq<Row<F>>, p: Row<F> -> bool)
    ensures DistinctIds(s) ==> DistinctIds(Filter(s, p))
  {
    if s != [] && DistinctIds(s) {
      var rest := s[1..];
      assert forall i :: 0 <= i < |rest| ==> rest[i] == s[i + 1];
      FilterKeepsIdsDistinct(rest, p);
      if p(s[0]) {
        var t := Filter(rest, p);
        forall x | x in t
          ensures x.id != s[0].id
        {
          var k :| 0 <= k < |rest| && rest[k] == x;
        }
        ConsIdsDistinct(s[0], t);
      }
    }
  }

  /** A row put in front of rows with distinct keys other than its own. */
  lemma ConsIdsDistinct<F>(row: Row<F>, t: seq<Row<F>>)
    requires DistinctIds(t)
    requires forall x | x in t :: x.id != row.id
    ensures DistinctIds([row] + t)
  {
    var r := [row] + t;
    forall i, j | 0 <= i < j < |r|
      ensures r[i].id != r[j].id
    {
      assert r[j] == t[j - 1] && t[j - 1] in t;
      if i > 0 {
        assert r[i] == t[i - 1];
      }
    }
  }

  /** The ids of rows with one more row appended. */
  lemma RowIdsAppend<F>(rows: seq<Row<F>>, row: Row<F>)
    ensures RowIds(rows + [row]) == RowIds(rows) + {row.id}
  {
    assert (rows + [row])[..|rows|] == rows;
  }

  /** Removing two key sets one after the other is removing their union. */
  lemma RemoveTwice<F>(rows: map<int, F>, ids: set<int>, more: set<int>)
    ensures rows - ids - more == rows - (ids + more)
  {
  }

  /** Removing a key just inserted gives back the map it was inserted into. */
  lemma RemoveInserted<F>(rows: map<int, F>, id: int, data: F)
    requires id !in rows
    ensures rows[id := data] - {id} == rows
  {
  }

  /** The keys of `order` that are not in `ids`, in their original order. */
  function Excluding(order: seq<int>, ids: set<int>): (r: seq<int>)
    ensures forall k :: k in r <==> k in order && k !in ids
    ensures NoDuplicates(order) ==> NoDuplicates(r)
  {
    if order == [] then []
    else if order[0] in ids then Excluding(order[1..], ids)
    else
      var rest := Excluding(order[1..], ids);
      assert NoDuplicates(order) ==> order[0] !in order[1..];
      [order[0]] + rest
  }

  /** Excluding two id sets one after the other is excluding their union. */
  lemma {:induction false} ExcludingTwice(order: seq<int>, ids: set<int>, more: set<int>)
    ensures Excluding(Excluding(order, ids), more) == Excluding(order, ids + more)
  {
    if order != [] {
      ExcludingTwice(order[1..], ids, more);
    }
  }

  /** Excluding ids that do not occur changes nothing. */
  lemma {:induction false} ExcludingAbsent(order: seq<int>, ids: set<int>)
    requires forall k :: k in order ==> k !in ids
    ensures Excluding(order, ids) == order
  {
    if order != [] {
      var first := order[0];
      assert first in order;
      assert first !in ids;
      assert forall k :: k in order[1..] ==> k in order;
      ExcludingAbsent(order[1..], ids);
      assert order == [first] + order[1..];
    }
  }

  /** Excluding the key just appended gives back the order it was appended to. */
  lemma {:induction false} ExcludingLast(order: seq<int>, id: int)
    requires id !in order
    ensures Excluding(order + [id], {id}) == order
  {
    if order != [] {
      assert (order + [id])[1..] == order[1..] + [id];
      ExcludingLast(order[1..], id);
      assert order == [order[0]] + order[1..];
    }
  }

  class Table<F> {
    var rows: map<int, F>
    var order: seq<int>
    var nextId: int

    /** The scan order lists every key exactly once, and the sequence is past every key. */
    ghost predicate Valid()
      reads this
    {
      && NoDuplicates(order)
      && (forall k :: k in order <==> k in rows)
      && (forall k :: k in rows ==> k < nextId)
    }

    constructor ()
      ensures Valid() && rows == map[] && order == []
    {
      rows, order, nextId := map[], [], 1;
    }

    /** `SELECT * FROM table`, in scan order. */
    function Scan(): (r: seq<Row<F>>)
      reads this
      requires Valid()
      ensures |r| == |order|
      ensures forall i :: 0 <= i < |r| ==> r[i].id == order[i] && r[i].id in rows && r[i].data == rows[r[i].id]
      ensures DistinctIds(r)
    {
      assert forall i :: 0 <= i < |order| ==> order[i] in order;
      RowsIn(order, rows)
    }

    /** `INSERT` without a key: the sequence supplies one that no row has. */
    method Insert(data: F) returns (id: int)
      requires Valid()
      modifies this
      ensures Valid()
      ensures id == old(nextId) && id !in old(rows)
      ensures rows == old(rows)[id := data] && order == old(order) + [id]
      ensures Scan() == old(Scan()) + [Row(id, data)]
    {
      id := nextId;
      assert forall k :: k in order ==> k in rows;
      assert forall i :: 0 <= i < |order| ==> order[i] in order;
      rows, order, nextId := rows[id := data], order + [id], nextId + 1;
    }

    /** `INSERT` with an explicit key that no row has yet. */
    method InsertAt(id: int, data: F)
      requires Valid() && id !in rows
      modifies this
      ensures Valid()
      ensures rows == old(rows)[id := data] && order == old(order) + [id]
      ensures Scan() == old(Scan()) + [Row(id, data)]
    {
      assert forall i :: 0 <= i < |order| ==> order[i] in order;
      rows, order := rows[id := data], order + [id];
      if nextId <= id {
        nextId := id + 1;
      }
    }

    /** `UPDATE ... WHERE id = id` of an existing row: the row keeps its place in the scan. */
    method Replace(id: int, data: F)
      requires Valid() && id in rows
      modifies this
      ensures Valid() && nextId == old(nextId)
      ensures rows == old(rows)[id := data] && order == old(order)
    {
      rows := rows[id := data];
    }

    /** `DELETE ... WHERE id = id`; a missing key deletes nothing. */
    method Remove(id: int)
      requires Valid()
      modifies this
      ensures Valid() && nextId == old(nextId)
      ensures rows == old(rows) - {id} && order == Excluding(old(order), {id})
      ensures id !in old(rows) ==> rows == old(rows) && order == old(order)
    {
      if id !in rows {
        ExcludingAbsent(order, {id});
      }
      rows, order := rows - {id}, Excluding(order, {id});
    }
  }
}
