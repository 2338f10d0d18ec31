/** The `CacheStorage` protocol of the older `mitm_cache` package
    (mitm_cache/cache_storage.py), whose operations deal in responses rather
    than whole flows. Its documented meaning is stated as functions over what
    a storage holds: under each key, the response part of the flow stored
    there (`None` when that flow had no response). */
module LegacyCacheStorage {
  import opened Wrappers
  import opened Http

  type Contents = map<string, Option<Response>>

  /** `get_response(cache_key)`: the response cached under the key, if any. */
  function GetResponse(c: Contents, key: string): Option<Response> {
    if key in c then c[key] else None
  }

  /** `store_response(cache_key, flow)`: the flow's response becomes the one cached under the key. */
  function StoreResponse(c: Contents, key: string, f: Flow): Contents {
    c[key := f.response]
  }

  /** `purge_response(cache_key)`: nothing is cached under the key any more. */
  function PurgeResponse(c: Contents, key: string): Contents {
    c - {key}
  }

  /** A stored flow's response is what a later `get_response` returns, and other keys read as before. */
  lemma StoreThenGetResponse(c: Contents, key: string, f: Flow, other: string)
    ensures GetResponse(StoreResponse(c, key, f), key) == f.response
    ensures other != key ==> GetResponse(StoreResponse(c, key, f), other) == GetResponse(c, other)
  {
  }

  /** After a purge `get_response` finds nothing, and other keys read as before. */
  lemma PurgeThenGetResponse(c: Contents, key: string, other: string)
    ensures GetResponse(PurgeResponse(c, key), key) == None
    ensures other != key ==> GetResponse(PurgeResponse(c, key), other) == GetResponse(c, other)
  {
  }
}
