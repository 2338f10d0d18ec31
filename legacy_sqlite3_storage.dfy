/** `SQLiteCacheStorage` (mitm_cache/cache_sqlite3_storage.py): the older
    package's storage, over the same `cache` table. It can read and insert
    but has no purge, although its protocol declares `purge_response`. */
module LegacySqliteStorage {
  import opened Wrappers
  import opened Http
  import opened SqliteTable
  import LegacyCacheStorage

  class SQLiteCacheStorage {
    /** The rows of the `cache` table. */
    var table: Table
    /** Whether the connection is still open. */
    var open: bool

    /** Connects and runs `CREATE TABLE IF NOT EXISTS`: a database file
        keeps the rows it already holds. */
    constructor (existing: Table)
      ensures table == existing && open
    {
      table := existing;
      open := true;
    }

    /** What `get_response` reads back under each key. */
    function Responses(): (c: LegacyCacheStorage.Contents)
      reads this
      ensures c.Keys == table.Keys
    {
      map k | k in table :: Deserialize(table[k].flow).response
    }

    method GetResponse(key: string) returns (r: Result<Option<Response>, DbError>)
      ensures !open ==> r == Failure(ProgrammingError)
      ensures open ==> r == Success(LegacyCacheStorage.GetResponse(Responses(), key))
      ensures open && key !in table ==> r == Success(None)
    {
      if !open {
        return Failure(ProgrammingError);
      }
      var row := Select(table, key);
      match row
      case Some(found) =>
        r := Success(Deserialize(found.flow).response);
      case None =>
        r := Success(None);
    }

    method StoreResponse(key: string, f: Flow) returns (r: Outcome<DbError>)
      modifies this
      ensures open == old(open)
      ensures !old(open) ==> r == Fail(ProgrammingError)
      ensures old(open) ==> (r == if key in old(table) then Fail(IntegrityError) else Pass)
      ensures r.Pass? ==> table == old(table)[key := RowFor(f)]
      ensures r.Fail? ==> table == old(table)
      ensures r.Pass? ==> Responses() == LegacyCacheStorage.StoreResponse(old(Responses()), key, f)
    {
      if !open {
        return Fail(ProgrammingError);
      }
      var inserted := Insert(table, key, RowFor(f));
      match inserted
      case Success(t) =>
        table := t;
        r := Pass;
      case Failure(e) =>
        r := Fail(e);
    }

    /** `conn.close()`: closing an already closed connection does nothing. */
    method Close()
      modifies this
      ensures !open && table == old(table)
    {
      open := false;
    }
  }

  /** A response stored under a fresh key is what `get_response` returns. */
  method StoreResponseThenGet(s: SQLiteCacheStorage, key: string, f: Flow)
    returns (stored: Outcome<DbError>, got: Result<Option<Response>, DbError>)
    requires s.open && key !in s.table
    modifies s
    ensures stored == Pass
    ensures got == Success(f.response)
    ensures s.table == old(s.table)[key := RowFor(f)]
  {
    stored := s.StoreResponse(key, f);
    got := s.GetResponse(key);
  }
}
