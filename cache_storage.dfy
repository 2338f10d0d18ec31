/** The `CacheStorage` protocol of the `mitmcache` package (mitmcache/cache_storage.py).
    The protocol has no bodies; its documented meaning is stated here as
    functions over what a storage holds, the flow cached under each key.
    Every backend's operations are specified against these functions. */
module CacheStorage {
  import opened Wrappers
  import opened Http

  /** What a cache storage holds: the flow cached under each key. */
  type Contents = map<string, Flow>

  /** `get(cache_key)`: the flow cached under the key, if any. */
  function Get(c: Contents, key: string): Option<Flow> {
    if key in c then Some(c[key]) else None
  }

  /** `store(cache_key, flow)`: the flow becomes the one cached under the key. */
  function Store(c: Contents, key: string, f: Flow): Contents {
    c[key := f]
  }

  /** `purge(cache_key)`: nothing is cached under the key any more. */
  function Purge(c: Contents, key: string): Contents {
    c - {key}
  }

  /** `update(cache_key, flow)`: the flow cached under the key, which must be
      there, is replaced. */
  function Update(c: Contents, key: string, f: Flow): Contents
    requires key in c
  {
    c[key := f]
  }

  /** A stored flow is what a later `get` returns, and other keys read as before. */
  lemma StoreThenGet(c: Contents, key: string, f: Flow, other: string)
    ensures Get(Store(c, key, f), key) == Some(f)
    ensures other != key ==> Get(Store(c, key, f), other) == Get(c, other)
  {
  }

  /** An updated flow is what a later `get` returns, and other keys read as before. */
  lemma UpdateThenGet(c: Contents, key: string, f: Flow, other: string)
    requires key in c
    ensures Get(Update(c, key, f), key) == Some(f)
    ensures other != key ==> Get(Update(c, key, f), other) == Get(c, other)
  {
  }

  /** After a purge `get` finds nothing, other keys read as before, and purging again changes nothing. */
  lemma PurgeThenGet(c: Contents, key: string, other: string)
    ensures Get(Purge(c, key), key) == None
    ensures other != key ==> Get(Purge(c, key), other) == Get(c, other)
    ensures Purge(Purge(c, key), key) == Purge(c, key)
    ensures key !in c ==> Purge(c, key) == c
  {
  }
}
