/** The `cache` table both SQLite storages create, and the effect of the SQL
    statements they run on it. The `id INTEGER PRIMARY KEY` surrogate,
    cursors, commits and the row factory are not modelled: a table is a map
    from its UNIQUE `cache_key` column to the rest of the row. */
module SqliteTable {
  import opened Wrappers
  import opened Http

  /** The `url`, `method` and `flow` columns of one row. */
  datatype Row = Row(url: string, httpMethod: string, flow: Blob)

  type Table = map<string, Row>

  /** The sqlite3 exceptions the storages can raise. */
  datatype DbError =
    | IntegrityError     // "UNIQUE constraint failed: cache.cache_key"
    | ProgrammingError   // "Cannot operate on a closed database."

  /** The row `store`/`update` write for a flow. Both storages bind
      `request.method` to the `url` placeholder and `request.url` to the
      `method` placeholder. */
  function RowFor(f: Flow): Row {
    Row(f.request.httpMethod, f.request.url, Serialize(f))
  }

  /** The columns come out swapped, and the blob reads back as the flow. */
  lemma RowForColumns(f: Flow)
    ensures RowFor(f).url == f.request.httpMethod
    ensures RowFor(f).httpMethod == f.request.url
    ensures Deserialize(RowFor(f).flow) == f
  {
    DeserializeSerialize(f);
  }

  /** `SELECT * FROM cache WHERE cache_key=?` followed by `fetchone()`. */
  function Select(t: Table, key: string): Option<Row> {
    if key in t then Some(t[key]) else None
  }

  /** `INSERT INTO cache (cache_key, url, method, flow) VALUES (?, ?, ?, ?)`. */
  function Insert(t: Table, key: string, row: Row): (r: Result<Table, DbError>)
    ensures r.Failure? <==> key in t
    ensures r.Failure? ==> r.error == IntegrityError
    ensures r.Success? ==> r.value.Keys == t.Keys + {key} && r.value[key] == row
    ensures r.Success? ==> forall k :: k in t ==> r.value[k] == t[k]
  {
    if key in t then Failure(IntegrityError) else Success(t[key := row])
  }

  /** `UPDATE cache SET url = ?, method = ?, flow = ? WHERE cache_key = ?`:
      no row matches an absent key, and then nothing changes. */
  function UpdateWhere(t: Table, key: string, row: Row): (r: Table)
    ensures r.Keys == t.Keys
    ensures key in t ==> r[key] == row
    ensures forall k :: k in t && k != key ==> r[k] == t[k]
    ensures key !in t ==> r == t
  {
    if key in t then t[key := row] else t
  }

  /** `DELETE FROM cache WHERE cache_key=?`. */
  function DeleteWhere(t: Table, key: string): (r: Table)
    ensures r.Keys == t.Keys - {key}
    ensures forall k :: k in r ==> r[k] == t[k]
  {
    t - {key}
  }

  /** The flow each row's blob reads back as. */
  function Flows(t: Table): (m: map<string, Flow>)
    ensures m.Keys == t.Keys
    ensures forall k :: k in t ==> m[k] == Deserialize(t[k].flow)
  {
    map k | k in t :: Deserialize(t[k].flow)
  }

  /** Writing a flow's row under a key changes what that key reads back to the flow, and nothing else. */
  lemma FlowsAfterWrite(t: Table, key: string, f: Flow)
    ensures Flows(t[key := RowFor(f)]) == Flows(t)[key := f]
  {
  }

  /** Deleting a key's row removes it from what is read back, and nothing else. */
  lemma FlowsAfterDelete(t: Table, key: string)
    ensures Flows(DeleteWhere(t, key)) == Flows(t) - {key}
  {
  }
}
