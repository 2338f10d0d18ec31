/** The `Cache` addon of the `mitmcache` package (mitmcache/cache.py): it
    resolves a cache key for each flow, serves stored responses in the
    request hook and persists origin responses in the response hook. */
module MitmCache {
  import opened Wrappers
  import opened Http
  import opened SqliteTable
  import opened SqliteStorage
  import CacheStorage

  /** Default of the `cache_key` option: the header, and the metadata entry, carrying the key. */
  const CacheKey := "Mitm-Cache-Key"
  /** Default of the `cache_from_origin` option: the metadata entry carrying the "from origin" flag. */
  const CacheFromOrigin := "Mitm-Cache-From-Origin"

  /** An exception raised out of a hook. */
  datatype HookError =
    | StorageFailed(error: DbError)   // raised by the storage
    | AssertionFailed                  // `assert cache.response is not None`

  /** `get_cache_key_from_flow`: metadata first, then the request header,
      then the response header. */
  function GetCacheKeyFromFlow(f: Flow): Option<string> {
    if CacheKey in f.metadata then
      Some(Str(f.metadata[CacheKey]))
    else if f.request.headers.Get(CacheKey).Some? then
      f.request.headers.Get(CacheKey)
    else if f.response.None? then
      None
    else
      var v := f.response.value.headers.Get(CacheKey);
      if v.Some? && v.value != "" then v else None
  }

  // The three places a key can come from, each on its own.

  function MetadataKey(f: Flow): Option<string> {
    if CacheKey in f.metadata then Some(Str(f.metadata[CacheKey])) else None
  }

  function RequestHeaderKey(f: Flow): Option<string> {
    f.request.headers.Get(CacheKey)
  }

  /** A response header only counts when its value is non-empty. */
  function ResponseHeaderKey(f: Flow): Option<string> {
    match f.response
    case None => None
    case Some(resp) =>
      match resp.headers.Get(CacheKey)
      case Some(v) => if v != "" then Some(v) else None
      case None => None
  }

  /** The first candidate that is present. */
  function FirstPresent(candidates: seq<Option<string>>): (r: Option<string>)
    ensures r.Some? <==> exists i :: 0 <= i < |candidates| && candidates[i].Some?
    ensures r.Some? ==> exists i :: 0 <= i < |candidates| && candidates[i] == r &&
                                    forall j :: 0 <= j < i ==> candidates[j].None?
  {
    if candidates == [] then None
    else if candidates[0].Some? then candidates[0]
    else FirstPresent(candidates[1..])
  }

  /** Key resolution is the first present of metadata, request header and
      response header, in that order. */
  lemma {:induction false} KeyPrecedence(f: Flow)
    ensures GetCacheKeyFromFlow(f) == FirstPresent([MetadataKey(f), RequestHeaderKey(f), ResponseHeaderKey(f)])
  {
    var cs := [MetadataKey(f), RequestHeaderKey(f), ResponseHeaderKey(f)];
    if cs[0].None? {
      assert FirstPresent(cs) == FirstPresent(cs[1..]);
      assert cs[1..] == [RequestHeaderKey(f), ResponseHeaderKey(f)];
      if cs[1].None? {
        assert FirstPresent(cs[1..]) == FirstPresent([ResponseHeaderKey(f)]);
        assert [ResponseHeaderKey(f)][1..] == [];
        assert FirstPresent([ResponseHeaderKey(f)]) == ResponseHeaderKey(f);
      }
    }
  }

  /** With no metadata entry, no request header and no response there is no key. */
  lemma NoSourceNoKey(f: Flow)
    requires CacheKey !in f.metadata && f.request.headers.Get(CacheKey).None? && f.response.None?
    ensures GetCacheKeyFromFlow(f) == None
  {
  }

  /** An empty request header is a key; an empty response header is not. */
  lemma EmptyHeaderAsymmetry(f: Flow)
    requires CacheKey !in f.metadata
    ensures f.request.headers.Get(CacheKey) == Some("") ==> GetCacheKeyFromFlow(f) == Some("")
    ensures (f.request.headers.Get(CacheKey).None? && f.response.Some? &&
             f.response.value.headers.Get(CacheKey) == Some("")) ==> GetCacheKeyFromFlow(f) == None
  {
  }

  /** The key `request` searches the storage with: a resolved, non-empty key. */
  function LookupKey(f: Flow): Option<string> {
    var key := GetCacheKeyFromFlow(f);
    if key.Some? && key.value != "" then key else None
  }

  /** The two metadata entries `request` always leaves behind. */
  function Stamped(m: map<string, MetaValue>, key: string): map<string, MetaValue> {
    m[CacheKey := MetaStr(key)][CacheFromOrigin := MetaBool(true)]
  }

  /** `flow.metadata.get(cache_from_origin, False)`, as a truth value. */
  predicate FromOrigin(f: Flow) {
    CacheFromOrigin in f.metadata && Truthy(f.metadata[CacheFromOrigin])
  }

  /** After `request`, the response hook resolves the key `request` stamped. */
  lemma StampedKeyWins(f: Flow, key: string)
    ensures GetCacheKeyFromFlow(f.(metadata := Stamped(f.metadata, key))) == Some(key)
    ensures FromOrigin(f.(metadata := Stamped(f.metadata, key)))
  {
  }

  class Cache {
    var storage: SQLiteStorage

    /** `configure`: the storage the factory builds. */
    constructor (storage: SQLiteStorage)
      ensures this.storage == storage
    {
      this.storage := storage;
    }

    /** The request hook. `freshKey` is the value `generate_cache_key_by_uuid` returns. */
    method Request(flow: HTTPFlow, freshKey: string) returns (r: Outcome<HookError>)
      modifies flow
      ensures
        var f := old(flow.State());
        match LookupKey(f)
        case None =>
          // no key, or an empty one: a fresh key, and the header is not forwarded
          r == Pass &&
          flow.State() == Flow(f.request.(headers := f.request.headers.Pop(CacheKey)), f.response,
                               Stamped(f.metadata, freshKey))
        case Some(key) =>
          if !storage.open then
            r == Fail(StorageFailed(ProgrammingError)) && flow.State() == f
          else if key !in storage.Cached() then
            // miss: the supplied key is kept and the request goes out as it came
            r == Pass && flow.State() == f.(metadata := Stamped(f.metadata, key))
          else
            match storage.Cached()[key].response
            case None =>
              r == Fail(AssertionFailed) && flow.State() == f
            case Some(cached) =>
              // hit: the stored response is served, stamped with the key
              r == Pass &&
              flow.State() == Flow(f.request, Some(cached.(headers := cached.headers.Set(CacheKey, key))),
                                   Stamped(f.metadata, key))
    {
      var cacheKey := GetCacheKeyFromFlow(flow.State());
      var searchCache := cacheKey.Some?;
      var key: string;
      if searchCache && cacheKey.value != "" {
        key := cacheKey.value;
        var cache := storage.Get(key);
        if cache.Failure? {
          return Fail(StorageFailed(cache.error));
        }
        if cache.value.Some? {
          var cachedResponse := cache.value.value.response;
          if cachedResponse.None? {
            return Fail(AssertionFailed);
          }
          flow.response := cachedResponse;
          flow.response := Some(flow.response.value.(headers := flow.response.value.headers.Set(CacheKey, key)));
          flow.metadata := flow.metadata[CacheKey := MetaStr(key)];
          flow.metadata := flow.metadata[CacheFromOrigin := MetaBool(false)];
        }
      } else {
        key := freshKey;
        flow.request := flow.request.(headers := flow.request.headers.Pop(CacheKey));
      }
      flow.metadata := flow.metadata[CacheKey := MetaStr(key)];
      flow.metadata := flow.metadata[CacheFromOrigin := MetaBool(true)];
      r := Pass;
    }

    /** The response hook: a flow flagged as coming from the origin is
        written under its key, by `update` when the key is already stored
        and by `store` otherwise. The flow itself is never changed. */
    method Response(flow: HTTPFlow) returns (r: Outcome<HookError>)
      modifies storage
      ensures storage.open == old(storage.open)
      ensures
        var f := flow.State();
        var key := GetCacheKeyFromFlow(f);
        if !(FromOrigin(f) && key.Some? && key.value != "") then
          r == Pass && storage.table == old(storage.table)
        else if !old(storage.open) then
          r == Fail(StorageFailed(ProgrammingError)) && storage.table == old(storage.table)
        else
          r == Pass && storage.table == old(storage.table)[key.value := RowFor(f)] &&
          storage.Cached() == CacheStorage.Store(old(storage.Cached()), key.value, f)
    {
      var f := flow.State();
      var cacheKey := GetCacheKeyFromFlow(f);
      var fromOrigin := if CacheFromOrigin in f.metadata then Truthy(f.metadata[CacheFromOrigin]) else false;
      r := Pass;
      if fromOrigin && cacheKey.Some? && cacheKey.value != "" {
        var key := cacheKey.value;
        var cache := storage.Get(key);
        if cache.Failure? {
          return Fail(StorageFailed(cache.error));
        }
        var written: Outcome<DbError>;
        if cache.value.Some? {
          written := storage.Update(key, f);
        } else {
          written := storage.Store(key, f);
        }
        // neither call can fail: the connection is open, and `store` only
        // runs for a key that is not stored yet
        assert written == Pass;
        FlowsAfterWrite(old(storage.table), key, f);
      }
    }

    /** `done`: the storage is closed. */
    method Done()
      modifies storage
      ensures !storage.open && storage.table == old(storage.table)
    {
      storage.Close();
    }
  }

  /** A flow without a key passes through: the request hook generates a key
      and the response hook stores the origin's flow under it. */
  method MissThenStore(cache: Cache, flow: HTTPFlow, freshKey: string, origin: Response)
    requires cache.storage.open
    requires LookupKey(flow.State()).None?
    requires freshKey != ""
    modifies flow, cache.storage
    ensures CacheKey in flow.metadata && flow.metadata[CacheKey] == MetaStr(freshKey)
    ensures flow.request.headers.Get(CacheKey).None?
    ensures flow.response == Some(origin)
    ensures cache.storage.Cached() == CacheStorage.Store(old(cache.storage.Cached()), freshKey, flow.State())
  {
    var requested := cache.Request(flow, freshKey);
    flow.response := Some(origin);  // the origin replies
    StampedKeyWins(flow.State(), freshKey);
    var responded := cache.Response(flow);
  }

  /** A hit is served from the storage without the origin; because the request
      hook leaves the "from origin" flag set even on a hit, the response hook
      then writes the served flow back under the same key. */
  method HitThenRestore(cache: Cache, flow: HTTPFlow, freshKey: string, key: string, cached: Response)
    requires cache.storage.open
    requires LookupKey(flow.State()) == Some(key)
    requires key in cache.storage.Cached() && cache.storage.Cached()[key].response == Some(cached)
    modifies flow, cache.storage
    ensures flow.response == Some(cached.(headers := cached.headers.Set(CacheKey, key)))
    ensures CacheFromOrigin in flow.metadata && flow.metadata[CacheFromOrigin] == MetaBool(true)
    ensures cache.storage.Cached() == CacheStorage.Update(old(cache.storage.Cached()), key, flow.State())
  {
    var requested := cache.Request(flow, freshKey);
    StampedKeyWins(old(flow.State()), key);
    var responded := cache.Response(flow);
  }
}
