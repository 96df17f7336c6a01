/** The `works` table as the bot uses it: rows written by an UPSERT keyed by
    `id`, and read back as a map from homework name to status
    (`write_work_in_db`, `get_works_from_db`). */
module Store {
  import opened PyJson
  import opened Constants

  /** One row: the `id` key and the five text columns, each holding `str()` of
      the value that was written. The UPSERT splices the id into the SQL text
      unquoted, so the key is `str()` of the id: an id of 5 and an id of "5"
      name the same row. */
  datatype Row = Row(id: string, status: string, name: string, comment: string, updated: string, lesson: string)

  /** The row an UPSERT with these six values (in the order of WriteFields) stores. */
  function RowOf(values: seq<Json>): Row
    requires |values| == |WriteFields|
  {
    Row(ToStr(values[0]), ToStr(values[1]), ToStr(values[2]), ToStr(values[3]), ToStr(values[4]), ToStr(values[5]))
  }

  /** No two rows share an id (the table's primary key). */
  predicate UniqueIds(rows: seq<Row>)
  {
    forall i, j :: 0 <= i < j < |rows| ==> rows[i].id != rows[j].id
  }

  /** UPSERT: replace the row with the same id, or add the row at the end. */
  function Upserted(rows: seq<Row>, row: Row): seq<Row>
  {
    if |rows| == 0 then [row]
    else if rows[0].id == row.id then [row] + rows[1..]
    else [rows[0]] + Upserted(rows[1..], row)
  }

  /** After an UPSERT the table holds the new row, keeps every row with another id,
      holds nothing else, and still has unique ids. */
  lemma {:induction false} UpsertedContents(rows: seq<Row>, row: Row)
    requires UniqueIds(rows)
    ensures row in Upserted(rows, row)
    ensures forall r :: r in rows && r.id != row.id ==> r in Upserted(rows, row)
    ensures forall r :: r in Upserted(rows, row) ==> r == row || (r in rows && r.id != row.id)
    ensures UniqueIds(Upserted(rows, row))
  {
    if |rows| > 0 {
      assert rows == [rows[0]] + rows[1..];
      if rows[0].id == row.id {
        assert forall r :: r in rows[1..] ==> r.id != row.id by {
          forall r | r in rows[1..] ensures r.id != row.id {
            var k :| 0 <= k < |rows[1..]| && rows[1..][k] == r;
            assert rows[k + 1] == r;
          }
        }
      } else {
        UpsertedContents(rows[1..], row);
        var tail := Upserted(rows[1..], row);
        forall j | 0 <= j < |tail| ensures tail[j].id != rows[0].id {
          assert tail[j] in tail;
          if tail[j] != row {
            var k :| 0 <= k < |rows[1..]| && rows[1..][k] == tail[j];
            assert rows[k + 1] == tail[j];
          }
        }
      }
    }
  }

  /** The snapshot `get_works_from_db` builds: for each row in order,
      `parse[name] = status`, so a later row overwrites an earlier one. */
  function Collapse(rows: seq<Row>): map<string, string>
  {
    if |rows| == 0 then map[]
    else Collapse(rows[..|rows| - 1])[rows[|rows| - 1].name := rows[|rows| - 1].status]
  }

  /** The snapshot has a key for every name in the table and no other. */
  lemma {:induction false} CollapseKeys(rows: seq<Row>)
    ensures Collapse(rows).Keys == set r | r in rows :: r.name
  {
    if |rows| > 0 {
      var front := rows[..|rows| - 1];
      CollapseKeys(front);
      assert rows == front + [rows[|rows| - 1]];
    }
  }

  /** The status kept for a name is that of the LAST row with that name. */
  lemma {:induction false} CollapseLastWins(rows: seq<Row>, k: nat)
    requires k < |rows|
    requires forall j :: k < j < |rows| ==> rows[j].name != rows[k].name
    ensures rows[k].name in Collapse(rows) && Collapse(rows)[rows[k].name] == rows[k].status
  {
    if k < |rows| - 1 {
      var front := rows[..|rows| - 1];
      assert front[k] == rows[k];
      CollapseLastWins(front, k);
    }
  }
}
