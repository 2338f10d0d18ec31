/** The `Cache` addon of the older `mitm_cache` package (mitm_cache/cache.py):
    the request hook serves a stored response for the key in the configured
    header; the response hook lower-cases the key from a hard-coded header
    name and stores the flow, or serves the stored response if there is one. */
module LegacyCache {
  import opened Wrappers
  import opened Http
  import opened SqliteTable
  import opened LegacySqliteStorage
  import LegacyCacheStorage

  /** `CACHE_KEY_HEADER`, the default of the `cache_header` option. */
  const CacheKeyHeader := "Mitm-Cache-Key"
  /** The header name the response hook reads, written into its code. */
  const ResponseKeyHeader := "mitm-cache-key"

  /** Every stored key is in lower case. */
  predicate KeysLower(t: Table) {
    forall k :: k in t ==> Lower(k) == k
  }

  /** With the default option both hooks read the same header, since header
      names compare case-insensitively. */
  lemma DefaultHeaderIsResponseHeader(h: Headers)
    ensures h.Get(CacheKeyHeader) == h.Get(ResponseKeyHeader)
  {
    assert Lower(CacheKeyHeader) == Lower(ResponseKeyHeader);
    GetIgnoresCase(h, CacheKeyHeader, ResponseKeyHeader);
  }

  /** When every stored key is lower case, a key with an upper-case letter is never stored. */
  lemma UppercaseKeyNeverStored(t: Table, key: string)
    requires KeysLower(t)
    requires !NoUpper(key)
    ensures key !in t
  {
  }

  class Cache {
    var storage: SQLiteCacheStorage
    /** The `cache_header` option. */
    const cacheHeader: string

    /** `__init__` and `load`: the storage opened on the configured file, and the option's value. */
    constructor (storage: SQLiteCacheStorage, cacheHeader: string)
      ensures this.storage == storage && this.cacheHeader == cacheHeader
    {
      this.storage := storage;
      this.cacheHeader := cacheHeader;
    }

    /** The request hook: a stored response for the header's key replaces the flow's response. */
    method Request(flow: HTTPFlow) returns (r: Outcome<DbError>)
      modifies flow
      ensures
        var key := old(flow.request.headers.Get(cacheHeader));
        if key.None? || key.value == "" then
          r == Pass && unchanged(flow)
        else if !storage.open then
          r == Fail(ProgrammingError) && unchanged(flow)
        else
          match LegacyCacheStorage.GetResponse(storage.Responses(), key.value)
          case None =>
            r == Pass && unchanged(flow)
          case Some(cached) =>
            r == Pass && flow.State() == old(flow.State()).(response := Some(cached))
    {
      var cacheKey := flow.request.headers.Get(cacheHeader);
      r := Pass;
      if cacheKey.Some? && cacheKey.value != "" {
        var cachedResponse := storage.GetResponse(cacheKey.value);
        if cachedResponse.Failure? {
          return Fail(cachedResponse.error);
        }
        if cachedResponse.value.Some? {
          flow.response := cachedResponse.value;
        }
      }
    }

    /** The response hook. */
    method Response(flow: HTTPFlow) returns (r: Outcome<DbError>)
      modifies flow, storage
      ensures storage.open == old(storage.open)
      ensures
        var key := Lower(old(flow.request.headers.Get(ResponseKeyHeader)).GetOr(""));
        if key == "" then
          r == Pass && unchanged(flow) && storage.table == old(storage.table)
        else if !old(storage.open) then
          r == Fail(ProgrammingError) && unchanged(flow) && storage.table == old(storage.table)
        else
          match LegacyCacheStorage.GetResponse(old(storage.Responses()), key)
          case None =>
            // nothing to serve: insert, which fails if a row without a response holds the key
            unchanged(flow) &&
            if key in old(storage.table) then
              r == Fail(IntegrityError) && storage.table == old(storage.table)
            else
              r == Pass && storage.table == old(storage.table)[key := RowFor(flow.State())] &&
              storage.Responses() == LegacyCacheStorage.StoreResponse(old(storage.Responses()), key, flow.State())
          case Some(cached) =>
            // already stored: the stored response replaces the origin's
            r == Pass && flow.State() == old(flow.State()).(response := Some(cached)) &&
            storage.table == old(storage.table)
      ensures KeysLower(old(storage.table)) ==> KeysLower(storage.table)
    {
      var cacheKey := Lower(flow.request.headers.Get(ResponseKeyHeader).GetOr(""));
      LowerHasNoUpper(flow.request.headers.Get(ResponseKeyHeader).GetOr(""));
      LowerFixedIffNoUpper(cacheKey);
      r := Pass;
      if cacheKey != "" {
        var stored := storage.GetResponse(cacheKey);
        if stored.Failure? {
          return Fail(stored.error);
        }
        if stored.value.None? {
          r := storage.StoreResponse(cacheKey, flow.State());
        } else {
          var cachedResponse := storage.GetResponse(cacheKey);
          if cachedResponse.Success? && cachedResponse.value.Some? {
            flow.response := cachedResponse.value;
          }
        }
      }
    }

    /** `done`: the storage is closed. */
    method Done()
      modifies storage
      ensures !storage.open && storage.table == old(storage.table)
    {
      storage.Close();
    }
  }

  /** A request whose key has an upper-case letter is never served, as long
      as only the response hook, which lower-cases keys, has filled the storage. */
  method UppercaseKeyMisses(cache: Cache, flow: HTTPFlow) returns (r: Outcome<DbError>)
    requires cache.storage.open && KeysLower(cache.storage.table)
    requires flow.request.headers.Get(cache.cacheHeader).Some?
    requires !NoUpper(flow.request.headers.Get(cache.cacheHeader).value)
    modifies flow
    ensures r == Pass && unchanged(flow)
  {
    UppercaseKeyNeverStored(cache.storage.table, flow.request.headers.Get(cache.cacheHeader).value);
    r := cache.Request(flow);
  }

  /** With the default option, a request whose key has an upper-case letter misses in the
      request hook and reaches the origin; the response hook then finds the lower-cased key
      stored and replaces the origin's response with the stored one. */
  method UppercaseKeyServedAtResponse(cache: Cache, flow: HTTPFlow, origin: Response, cached: Response)
      returns (r: Outcome<DbError>)
    requires cache.cacheHeader == CacheKeyHeader
    requires cache.storage.open && KeysLower(cache.storage.table)
    requires flow.request.headers.Get(ResponseKeyHeader).Some?
    requires !NoUpper(flow.request.headers.Get(ResponseKeyHeader).value)
    requires LegacyCacheStorage.GetResponse(cache.storage.Responses(),
               Lower(flow.request.headers.Get(ResponseKeyHeader).value)) == Some(cached)
    modifies flow, cache.storage
    ensures r == Pass
    ensures flow.State() == old(flow.State()).(response := Some(cached))
    ensures cache.storage.table == old(cache.storage.table)
  {
    DefaultHeaderIsResponseHeader(flow.request.headers);
    UppercaseKeyNeverStored(cache.storage.table, flow.request.headers.Get(ResponseKeyHeader).value);
    r := cache.Request(flow);
    flow.response := Some(origin);  // the origin replies
    r := cache.Response(flow);
  }
}
