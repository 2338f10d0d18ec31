/** `SQLiteStorage` (mitmcache/storage/sqlite3.py): the `mitmcache` package's
    only storage backend, a `cache` table in an SQLite database. */
module SqliteStorage {
  import opened Wrappers
  import opened Http
  import opened SqliteTable
  import CacheStorage

  class SQLiteStorage {
    /** The rows of the `cache` table. */
    var table: Table
    /** Whether the connection is still open. */
    var open: bool

    /** Connects and runs `CREATE TABLE IF NOT EXISTS`: a database file
        keeps the rows it already holds; `:memory:` starts with none. */
    constructor (existing: Table)
      ensures table == existing && open
    {
      table := existing;
      open := true;
    }

    /** What `get` reads back under each key. */
    function Cached(): CacheStorage.Contents
      reads this
    {
      Flows(table)
    }

    method Get(key: string) returns (r: Result<Option<Flow>, DbError>)
      ensures !open ==> r == Failure(ProgrammingError)
      ensures open ==> r == Success(CacheStorage.Get(Cached(), key))
      ensures open ==> (r.value.Some? <==> key in table)
    {
      if !open {
        return Failure(ProgrammingError);
      }
      var row := Select(table, key);
      match row
      case Some(found) =>
        r := Success(Some(Deserialize(found.flow)));
      case None =>
        r := Success(None);
    }

    method Store(key: string, f: Flow) returns (r: Outcome<DbError>)
      modifies this
      ensures open == old(open)
      ensures !old(open) ==> r == Fail(ProgrammingError)
      ensures old(open) ==> (r == if key in old(table) then Fail(IntegrityError) else Pass)
      ensures r.Pass? ==> table == old(table)[key := RowFor(f)]
      ensures r.Fail? ==> table == old(table)
      ensures r.Pass? ==> Cached() == CacheStorage.Store(old(Cached()), key, f)
    {
      if !open {
        return Fail(ProgrammingError);
      }
      var inserted := Insert(table, key, RowFor(f));
      match inserted
      case Success(t) =>
        table := t;
        FlowsAfterWrite(old(table), key, f);
        r := Pass;
      case Failure(e) =>
        r := Fail(e);
    }

    method Update(key: string, f: Flow) returns (r: Outcome<DbError>)
      modifies this
      ensures open == old(open)
      ensures r == if old(open) then Pass else Fail(ProgrammingError)
      ensures table == if old(open) then UpdateWhere(old(table), key, RowFor(f)) else old(table)
      ensures old(open) && key in old(table) ==> Cached() == CacheStorage.Update(old(Cached()), key, f)
      ensures key !in old(table) ==> table == old(table)
    {
      if !open {
        return Fail(ProgrammingError);
      }
      table := UpdateWhere(table, key, RowFor(f));
      FlowsAfterWrite(old(table), key, f);
      r := Pass;
    }

    method Purge(key: string) returns (r: Outcome<DbError>)
      modifies this
      ensures open == old(open)
      ensures r == if old(open) then Pass else Fail(ProgrammingError)
      ensures table == if old(open) then DeleteWhere(old(table), key) else old(table)
      ensures old(open) ==> Cached() == CacheStorage.Purge(old(Cached()), key)
    {
      if !open {
        return Fail(ProgrammingError);
      }
      table := DeleteWhere(table, key);
      FlowsAfterDelete(old(table), key);
      r := Pass;
    }

    /** `conn.close()`: closing an already closed connection does nothing. */
    method Close()
      modifies this
      ensures !open && table == old(table)
    {
      open := false;
    }
  }

  /** The round trip of the storage test: a flow stored under a fresh key is
      what `get` returns, and after a purge `get` returns nothing. */
  method StoreGetPurge(s: SQLiteStorage, key: string, f: Flow)
    returns (stored: Outcome<DbError>, got: Result<Option<Flow>, DbError>, afterPurge: Result<Option<Flow>, DbError>)
    requires s.open && key !in s.table
    modifies s
    ensures stored == Pass
    ensures got == Success(Some(f))
    ensures afterPurge == Success(None)
    ensures s.table == old(s.table)
  {
    stored := s.Store(key, f);
    got := s.Get(key);
    var purged := s.Purge(key);
    afterPurge := s.Get(key);
  }
}
