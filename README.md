# Cache decision layer of the mitmproxy cache addon, in Dafny

This project models the part of the `mitmcache` mitmproxy addon that decides, for each
intercepted HTTP flow, whether to serve a stored response and whether to persist what the
origin sent back. It covers both generations of the addon.

- **`mitmcache`** (current). `Cache.get_cache_key_from_flow` resolves a key from three
  places, in order: the flow's metadata, the request's `Mitm-Cache-Key` header, and the
  response's `Mitm-Cache-Key` header.
  - The request hook serves a stored flow's response on a hit. Otherwise it keeps the
    supplied key, or it generates one and strips the header. Unless the storage call or the
    assertion on the stored flow raises, it records the key and a "from origin" flag in the
    flow's metadata.
  - The response hook writes a flagged flow under its key. It uses `update` when the key is
    already stored, and `store` otherwise.
  - The keyed store is the `SQLiteStorage` class over a `cache` table with a UNIQUE
    `cache_key` column.
- **`mitm_cache`** (older). The request hook looks the key up only in the configured request
  header. The response hook lower-cases the key it reads from the hard-coded header
  `mitm-cache-key`. Its `SQLiteCacheStorage` can only read and insert.

Modules follow the source files:

| module | file | models |
|---|---|---|
| `Wrappers` | wrappers.dfy | `None` and raised exceptions (`Option`, `Result`, `Outcome`) |
| `Http` | http.dfy | mitmproxy's headers, request, response, flow (class `HTTPFlow` mutated in place, `Flow` its snapshot) and the flow file format |
| `SqliteTable` | sqlite_table.dfy | the shared `cache` table schema and its SELECT/INSERT/UPDATE/DELETE statements |
| `CacheStorage` | cache_storage.dfy | mitmcache/cache_storage.py |
| `SqliteStorage` | sqlite_storage.dfy | mitmcache/storage/sqlite3.py |
| `MitmCache` | mitmcache_cache.dfy | mitmcache/cache.py |
| `LegacyCacheStorage` | legacy_cache_storage.dfy | mitm_cache/cache_storage.py |
| `LegacySqliteStorage` | legacy_sqlite3_storage.dfy | mitm_cache/cache_sqlite3_storage.py |
| `LegacyCache` | legacy_cache.dfy | mitm_cache/cache.py |

## How the model is built

- **A flow** is the class `Http.HTTPFlow`. The hooks update its `request`, `response` and
  `metadata` fields in place. `State()` is the flow's value. The storages keep values,
  because a flow is serialised when written and a fresh object is read back.
- **Headers** are filed under their ASCII-lower-cased names. This gives mitmproxy's
  case-insensitive lookup, so `Mitm-Cache-Key` and `mitm-cache-key` name the same field.
  `Headers.NamesFolded` states that every field name is lower case; `Headers.Set` and
  `Headers.Pop` preserve it, and after `Pop` no field of that name is left.
- **Key resolution.** `MitmCache.GetCacheKeyFromFlow` is `get_cache_key_from_flow`
  (mitmcache/cache.py:100-115). The hooks' contracts use three helpers over it:
  `MitmCache.LookupKey` is the resolved key when it is non-empty, the hit-or-miss test of
  mitmcache/cache.py:63. `MitmCache.Stamped` is the metadata after the two writes of
  mitmcache/cache.py:77-79. `MitmCache.FromOrigin` is the truthiness test on the flag at
  mitmcache/cache.py:91.
- **A table** is a map from `cache_key` to the row's `url`, `method` and `flow` columns.
  `SqliteTable.Flows` is its read-back view: each key mapped to the flow its blob holds, as a
  `SELECT` followed by deserialisation returns it (mitmcache/storage/sqlite3.py:30-34).
- **Exceptions.** A failed UNIQUE constraint is `IntegrityError`. A use of a closed
  connection is `ProgrammingError`. The failed `assert cache.response is not None` is
  `AssertionFailed`. The source catches none of these, so each hook returns the failure
  unchanged, and at the moment it fails it has changed neither the flow nor the table.
- **The two `CacheStorage` protocols** have no bodies. Their documented meaning is given as
  functions over what a storage holds (`CacheStorage.Store`, `LegacyCacheStorage.GetResponse`,
  ...). Each SQLite method states its effect on that abstract view with these functions. The
  protocols are specification modules, not interface types. Each controller holds its one
  concrete SQLite class, the only backend the source constructs.
- **The generated key** (`uuid4()`) is the `freshKey` parameter of `MitmCache.Cache.Request`.

### Quirks modelled as written

- **Flag overwrite.** On a hit, `request` first writes `False` as the "from origin" flag, then
  unconditionally writes `True` (mitmcache/cache.py:71 and 79). `MitmCache.Cache.Request`
  therefore gives the stamped metadata, with the flag `True`, on every path.
  `MitmCache.HitThenRestore` shows the consequence: the response hook writes the served
  flow back under its key with `update`.
- **Empty-header asymmetry.** An empty request-header value is a key (`is not None`). An
  empty response-header value is not (a truthiness test). The request hook treats an empty
  key like a missing one and generates a new key.
- **Explicit key on a miss.** On a miss with a non-empty supplied key, `request` keeps the key
  and forwards the request unchanged. The header is not removed, although the docstring
  at mitmcache/cache.py:53-54 says it is.
- **Swapped columns.** Both stores bind `request.method` to the `url` column and
  `request.url` to the `method` column (`SqliteTable.RowFor`).
- **Legacy lower-casing.** The older response hook stores under the lower-cased key, but its
  request hook looks up the raw value. A key with an upper-case letter is therefore never
  served by the request hook (`LegacyCache.UppercaseKeyMisses`). The flow goes to the origin.
  If the lower-cased key is already stored, the response hook then replaces the origin's
  response with the stored one. Otherwise it inserts the flow under the lower-cased key
  (`LegacyCache.Cache.Response`, `LegacyCache.UppercaseKeyServedAtResponse`).
- **Legacy stored flow without a response.** If the row for a key holds a flow whose response
  is `None`, `get_response` returns `None`, so the older response hook tries to insert again.
  That insert fails with `IntegrityError`.
- **Update on an absent key.** `update` runs an UPDATE whose WHERE clause matches no row, so
  it succeeds and changes nothing (mitmcache/storage/sqlite3.py:69-84, `SqliteTable.UpdateWhere`).
- **Errors propagate.** No hook catches an sqlite3 exception or the failed assertion; each
  reaches the caller of the hook.
- **No legacy purge.** The older protocol declares `purge_response`, but `SQLiteCacheStorage`
  does not implement it, so the model's class has no such method.

## Model

| member | source | states |
|---|---|---|
| `MitmCache.KeyPrecedence` | mitmcache/cache.py:100-115 | the key `GetCacheKeyFromFlow` resolves is the first present of: the metadata entry (as `str`), the request header, a non-empty response header |
| `MitmCache.NoSourceNoKey` | mitmcache/cache.py:110-111 | no metadata entry, no request header and no response give no key |
| `MitmCache.EmptyHeaderAsymmetry` | mitmcache/cache.py:106-115 | an empty request header is returned as the key; an empty response header gives no key |
| `MitmCache.StampedKeyWins` | mitmcache/cache.py:102-104 | once `request` has stamped the metadata, resolution returns the stamped key and the flag is truthy, whatever the headers say |
| `MitmCache.Cache.constructor` | mitmcache/cache.py:37-38 | the controller uses the storage the factory built |
| `MitmCache.Cache.Request` | mitmcache/cache.py:48-79 | no storage change on any path. No or empty key: fresh key, cache-key header popped (other headers kept), response kept. Miss: flow kept. Hit: stored response served, with its cache-key header set to the key. Pass paths stamp key and flag `True` into metadata. Closed storage, or a stored flow without a response, fail with the flow unchanged |
| `MitmCache.Cache.Response` | mitmcache/cache.py:81-98 | the flow is never modified. If flag is truthy and key non-empty: the key reads back the flow, its row is the flow's row, other keys unchanged, and IntegrityError never arises (store only for an absent key). Otherwise nothing changes; a closed storage fails |
| `MitmCache.Cache.Done` | mitmcache/cache.py:117-118 | the storage is closed and its rows kept |
| `MitmCache.MissThenStore` | mitmcache/cache.py:59-98 | a flow with no usable key (none resolved, or an empty one, such as an empty `Mitm-Cache-Key` request header) gets the generated key, goes out with that header stripped, and its origin flow ends up stored under the generated key |
| `MitmCache.HitThenRestore` | mitmcache/cache.py:63-98 | a hit serves the stored response stamped with the key, leaves the flag `True`, and the response hook writes the served flow back under the key |
| `SqliteStorage.SQLiteStorage.constructor` | mitmcache/storage/sqlite3.py:11-26 | an open connection over the rows the database already holds |
| `SqliteStorage.SQLiteStorage.Get` | mitmcache/storage/sqlite3.py:28-36 | the flow stored under the key, or `None` exactly when no row has that key; fails on a closed connection |
| `SqliteStorage.SQLiteStorage.Store` | mitmcache/storage/sqlite3.py:38-61 | fails with IntegrityError and no change when the key exists; otherwise adds exactly that key's row (columns swapped) and the key reads back the flow |
| `SqliteStorage.SQLiteStorage.Update` | mitmcache/storage/sqlite3.py:63-84 | replaces the key's row when present, does nothing and succeeds when absent, leaves other rows alone |
| `SqliteStorage.SQLiteStorage.Purge` | mitmcache/storage/sqlite3.py:86-89 | removes the key's row, if any, and no other |
| `SqliteStorage.SQLiteStorage.Close` | mitmcache/storage/sqlite3.py:91-92 | the connection is closed, so every later operation fails; closing twice is harmless |
| `SqliteStorage.StoreGetPurge` | tests/storage/test_sqlite3.py:8-20 | store under a fresh key, then get, returns the flow; after purge get returns nothing and the table is as before |
| `Http.Headers.Set` | mitmcache/cache.py:69 | the set name reads back the value, every other name reads as before, and lower-cased field names stay lower-cased |
| `Http.Headers.Pop` | mitmcache/cache.py:75 | the popped name reads as absent, every other name reads as before; over lower-cased field names no field of that name remains |
| `SqliteTable.Insert` | mitmcache/storage/sqlite3.py:44-60 | fails with IntegrityError exactly when the key exists (UNIQUE column); otherwise adds one row and keeps the rest |
| `SqliteTable.UpdateWhere` | mitmcache/storage/sqlite3.py:69-83 | replaces only the matching row; with no matching row the table is unchanged |
| `SqliteTable.DeleteWhere` | mitmcache/storage/sqlite3.py:88 | removes only the matching row |
| `SqliteTable.RowForColumns` | mitmcache/storage/sqlite3.py:52-59 | the `url` column gets the request method, the `method` column the URL, and the blob reads back as the flow |
| `SqliteTable.FlowsAfterWrite` | mitmcache/storage/sqlite3.py:38-84 | writing a key's row, by INSERT or UPDATE, changes the read-back of that key to the written flow and the read-back of no other key |
| `SqliteTable.FlowsAfterDelete` | mitmcache/storage/sqlite3.py:86-89 | deleting a key's row removes that key from the read-back and leaves every other key's flow as it was |
| `CacheStorage.StoreThenGet` | mitmcache/cache_storage.py:9-13 | after `store(k, f)`, `get(k)` is `f` and other keys read as before |
| `CacheStorage.UpdateThenGet` | mitmcache/cache_storage.py:18-19 | after `update(k, f)` on a stored key, `get(k)` is `f` and other keys read as before |
| `CacheStorage.PurgeThenGet` | mitmcache/cache_storage.py:15-16 | after `purge(k)`, `get(k)` is `None`, others unchanged; purging again, or an absent key, changes nothing |
| `LegacyCache.Cache.constructor` | mitm_cache/cache.py:19-33 | the storage opened at start-up and the `cache_header` option |
| `LegacyCache.Cache.Request` | mitm_cache/cache.py:35-44 | only the configured request header is read. A non-empty key with a stored response replaces the flow's response. Otherwise the flow is unchanged; a closed storage fails |
| `LegacyCache.Cache.Response` | mitm_cache/cache.py:46-53 | key: lower-cased `mitm-cache-key` header; empty does nothing. Stored response: it replaces the flow's, storage kept. No stored response: the flow is inserted under the key, or IntegrityError if a response-less row holds it. Keeps all stored keys lower case |
| `LegacyCache.Cache.Done` | mitm_cache/cache.py:55-57 | the storage is closed and its rows kept |
| `LegacyCache.DefaultHeaderIsResponseHeader` | mitm_cache/cache.py:13 | with the default option, the request hook's header and the response hook's hard-coded header are the same field |
| `LegacyCache.UppercaseKeyNeverStored` | mitm_cache/cache.py:47-49 | when every stored key is lower case, a key with an upper-case letter is not stored |
| `LegacyCache.UppercaseKeyServedAtResponse` | mitm_cache/cache.py:35-53 | with the default option, a request whose key has an upper-case letter is not served by the request hook; when the lower-cased key is stored, the response hook replaces the origin's response with the stored one and the table is unchanged |
| `LegacyCache.UppercaseKeyMisses` | mitm_cache/cache.py:36-44 | over a storage filled by the response hook, a request whose key has an upper-case letter is never served and the flow is unchanged |
| `LegacySqliteStorage.SQLiteCacheStorage.constructor` | mitm_cache/cache_sqlite3_storage.py:9-24 | an open connection over the rows the database already holds |
| `LegacySqliteStorage.SQLiteCacheStorage.GetResponse` | mitm_cache/cache_sqlite3_storage.py:26-34 | the response of the flow stored under the key; `None` when no row has the key; fails on a closed connection |
| `LegacySqliteStorage.SQLiteCacheStorage.StoreResponse` | mitm_cache/cache_sqlite3_storage.py:36-59 | fails with IntegrityError and no change when the key exists; otherwise adds exactly that key's row (columns swapped), and the key reads back the flow's response |
| `LegacySqliteStorage.SQLiteCacheStorage.Close` | mitm_cache/cache_sqlite3_storage.py:61-62 | the connection is closed and its rows kept |
| `LegacySqliteStorage.StoreResponseThenGet` | mitm_cache/cache_sqlite3_storage.py:26-59 | a flow stored under a fresh key reads back as its response, and exactly one row is added |
| `LegacyCacheStorage.StoreThenGetResponse` | mitm_cache/cache_storage.py:9-13 | after `store_response(k, f)`, `get_response(k)` is `f`'s response and other keys read as before |
| `LegacyCacheStorage.PurgeThenGetResponse` | mitm_cache/cache_storage.py:15-16 | after `purge_response(k)`, `get_response(k)` is `None` and other keys read as before |

## Left out

- The flow file format (`FlowWriter`/`FlowReader`). A blob stands for the flow it was
  written from, and reading it back gives that flow. A blob that is corrupt or yields no
  flow cannot arise in the model.
- SQLite mechanics. The connection and cursor objects, `commit`, the row factory and the
  `id INTEGER PRIMARY KEY` surrogate are foreign code. Durability is represented only by
  the constructor taking the rows the database file already holds.
- `uuid4()` is nondeterministic. Its value is the `freshKey` parameter.
- Configuration and process plumbing are foreign code. These are `load`, `configure` called
  again after option changes, `ctx.options`, the `Loader`, mitmcache/storage/factory.py
  (it only constructs `SQLiteStorage`), the `MITMPROXY_CACHE_FILE` environment variable,
  the module-level `addons` list, and all logging.
- The options of mitmcache/cache.py are the constants `"Mitm-Cache-Key"` and
  `"Mitm-Cache-From-Origin"`. A configuration that makes the two names equal is therefore
  not modelled.
- mitmproxy's `Headers` is modelled only as far as the addons use it: lookup ignores the
  case of the name. Duplicate fields, field order and the original spelling of names are
  not kept.
- `str.lower()` is modelled for ASCII letters only. Unicode case mapping is not modelled.
- Metadata values are strings or booleans. Those are the only types the addons store.
- A response is truthy exactly when it is present.
- Python's `assert` is taken to be enabled. Running with `-O` would skip it.
- `close` in the two protocols has no abstract function, because it states nothing beyond
  ending use. Each backend models it with its `open` flag: after `Close` every operation
  fails with `ProgrammingError`.
- Concurrency. The proxy engine's concurrent invocation of hooks on a shared connection
  does not happen in this code: each call runs to completion before the next.
- mitmcache/__init__.py only re-exports, and tests/example_flow.py holds only fixture data.
  Neither is modelled.
