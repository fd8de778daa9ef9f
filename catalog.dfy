/**
 * The `movies(id, name, type, rating, image_url)` table as the handlers use it:
 * an insert at a fresh auto-increment id, an update of the four mutable
 * columns by id, a delete by id, a select by id and the listing ordered by
 * descending id. The SQL engine is replaced by a map from id to row.
 */
module Catalog {
  import opened Wrappers
  import opened JsValues

  /** The four mutable columns, as one INSERT or UPDATE sets them (`kind` is the `type` column). */
  datatype RowValues = RowValues(name: string, kind: Option<string>, rating: Option<Numeric>, imageUrl: Option<string>)

  /** A row of `movies`, also the JSON object the API sends to the client. */
  datatype Movie = Movie(id: int, name: string, kind: Option<string>, rating: Option<Numeric>, imageUrl: Option<string>)

  function RowWith(id: int, v: RowValues): Movie
  {
    Movie(id, v.name, v.kind, v.rating, v.imageUrl)
  }

  /** What the API layer guarantees of every row it writes: a non-empty name, and no empty string in `type` or `image_url`. */
  predicate ServerWritten(v: RowValues)
  {
    v.name != "" && (v.kind.None? || Truthy(v.kind)) && (v.imageUrl.None? || Truthy(v.imageUrl))
  }

  predicate DescendingIds(list: seq<Movie>)
  {
    forall i, j :: 0 <= i < j < |list| ==> list[i].id > list[j].id
  }

  predicate KeyedById(rows: map<int, Movie>)
  {
    forall id | id in rows :: rows[id].id == id
  }

  /** The rows with ids `hi, hi - 1, ..., 1` that exist, in that order. */
  function RowsDownFrom(rows: map<int, Movie>, hi: int): (list: seq<Movie>)
    requires KeyedById(rows)
    ensures DescendingIds(list)
    ensures forall i :: 0 <= i < |list| ==> 1 <= list[i].id <= hi && list[i].id in rows && rows[list[i].id] == list[i]
    ensures forall id | id in rows && 1 <= id <= hi :: rows[id] in list
    decreases hi
  {
    if hi < 1 then []
    else if hi in rows then [rows[hi]] + RowsDownFrom(rows, hi - 1)
    else RowsDownFrom(rows, hi - 1)
  }

  class MovieTable {
    var rows: map<int, Movie>
    /** The id the next INSERT receives; auto-increment never hands out an id twice. */
    var nextId: int

    ghost predicate Valid()
      reads this
    {
      1 <= nextId && forall id | id in rows :: rows[id].id == id && 1 <= id < nextId
    }

    constructor ()
      ensures Valid() && rows == map[] && nextId == 1
    {
      rows := map[];
      nextId := 1;
    }

    /** `INSERT INTO movies (name, type, rating, image_url) VALUES (...)`; returns the row with its `insertId`. */
    method Insert(v: RowValues) returns (row: Movie)
      requires Valid()
      modifies this
      ensures Valid()
      ensures row == RowWith(old(nextId), v) && row.id !in old(rows)
      ensures rows == old(rows)[row.id := row] && nextId == old(nextId) + 1
    {
      row := RowWith(nextId, v);
      rows := rows[nextId := row];
      nextId := nextId + 1;
    }

    /** `SELECT * FROM movies WHERE id = ?`: at most one row, the one stored under `id`. */
    method SelectById(id: int) returns (selected: seq<Movie>)
      requires Valid()
      ensures |selected| <= 1
      ensures selected == [] <==> id !in rows
      ensures forall m | m in selected :: m.id == id && m == rows[id]
    {
      if id in rows {
        selected := [rows[id]];
      } else {
        selected := [];
      }
    }

    /** `UPDATE movies SET name=?, type=?, rating=?, image_url=? WHERE id=?`: zero rows affected on a missing id. */
    method UpdateRow(id: int, v: RowValues)
      requires Valid()
      modifies this
      ensures Valid() && nextId == old(nextId)
      ensures rows == if id in old(rows) then old(rows)[id := RowWith(id, v)] else old(rows)
    {
      if id in rows {
        rows := rows[id := RowWith(id, v)];
      }
    }

    /** `DELETE FROM movies WHERE id = ?`: no existence check. */
    method DeleteRow(id: int)
      requires Valid()
      modifies this
      ensures Valid() && nextId == old(nextId)
      ensures rows == old(rows) - {id}
    {
      rows := rows - {id};
    }

    /** `SELECT * FROM movies ORDER BY id DESC`: every row once, ids strictly descending. */
    function ListByIdDesc(): (list: seq<Movie>)
      reads this
      requires Valid()
      ensures DescendingIds(list)
      ensures forall m :: m in list <==> m.id in rows && rows[m.id] == m
      ensures |list| == |rows|
    {
      var list := RowsDownFrom(rows, nextId - 1);
      DistinctListHasMapSize(rows, list);
      list
    }
  }

  /** A listing without repeated ids that holds exactly the stored rows of a map is as long as the map. */
  lemma {:induction false} DistinctListHasMapSize(rows: map<int, Movie>, list: seq<Movie>)
    requires KeyedById(rows)
    requires DescendingIds(list)
    requires forall m :: m in list <==> m.id in rows && rows[m.id] == m
    ensures |list| == |rows|
    decreases |list|
  {
    if list == [] {
      assert forall id | id in rows :: rows[id] in list;
      assert rows.Keys == {};
    } else {
      var top := list[0];
      assert top in list;
      var rest := rows - {top.id};
      assert rest.Keys == rows.Keys - {top.id};
      assert |rest.Keys| == |rows.Keys| - 1;
      forall m ensures m in list[1..] <==> m.id in rest && rest[m.id] == m {
        if m in list[1..] {
          var k :| 1 <= k < |list| && list[k] == m;
          assert m.id < top.id;
        }
        if m.id in rest && rest[m.id] == m {
          assert m in list;
          var k :| 0 <= k < |list| && list[k] == m;
          assert k != 0;
          assert list[1..][k - 1] == m;
        }
      }
      DistinctListHasMapSize(rest, list[1..]);
    }
  }
}
