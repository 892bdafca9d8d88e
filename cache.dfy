/**
 * services/cache.js: the canonical cache key, the reconnect back-off, and the
 * Redis-backed response cache guarded by its connection flag. The Redis
 * server is modelled by its observable behaviour: a map from key to value
 * and expiry instant, read against the server's clock `now` (in seconds).
 */
module Cache {
  import opened Wrappers
  import opened JsBuiltins
  import opened Dict

  // ---------------------------------------------------------------------
  // Cache keys: `generateCacheKey(prefix, params)`.
  // ---------------------------------------------------------------------

  /** The fixed application tag every key starts with. */
  const AppTag: string := "heypico"

  /** The `k:v` pairs for the given parameter names, in that order. */
  function RenderPairs(params: Dict<string>, names: seq<string>): (pairs: seq<string>)
    ensures |pairs| == |names|
  {
    seq(|names|, i requires 0 <= i < |names| => names[i] + ":" + GetOr(params, names[i], ""))
  }

  /** `heypico:<prefix>:` followed by the parameters sorted by name, each
      rendered as `name:value`, joined with `|`. Values are already strings
      (the template string's coercion happens at the call site). */
  function GenerateCacheKey(prefix: string, params: Dict<string>): (key: string)
    ensures AppTag + ":" + prefix + ":" <= key
    ensures params == [] ==> key == AppTag + ":" + prefix + ":"
  {
    AppTag + ":" + prefix + ":" + Join("|", RenderPairs(params, SortStrings(Keys(params))))
  }

  /** Two parameter bags holding the same name/value pairs give the same key,
      whatever order their names were inserted in. */
  lemma KeyIgnoresInsertionOrder(prefix: string, p: Dict<string>, q: Dict<string>)
    requires UniqueKeys(p) && UniqueKeys(q)
    requires ToMap(p) == ToMap(q)
    ensures GenerateCacheKey(prefix, p) == GenerateCacheKey(prefix, q)
  {
    forall x
      ensures multiset(Keys(p))[x] == multiset(Keys(q))[x]
    {
      UniqueKeysMultiset(p, x);
      UniqueKeysMultiset(q, x);
      SameMapSameGet(p, q, x);
      GetFindsKey(p, x);
      GetFindsKey(q, x);
    }
    assert multiset(Keys(p)) == multiset(Keys(q));
    var names := SortStrings(Keys(p));
    SortedUnique(names, SortStrings(Keys(q)));
    forall i | 0 <= i < |names|
      ensures RenderPairs(p, names)[i] == RenderPairs(q, names)[i]
    {
      SameMapSameGet(p, q, names[i]);
    }
    assert RenderPairs(p, names) == RenderPairs(q, names);
  }

  /** Any sorted listing of the parameter names is the one the key uses. */
  lemma KeyFromSortedNames(prefix: string, params: Dict<string>, names: seq<string>)
    requires Sorted(names) && multiset(names) == multiset(Keys(params))
    ensures GenerateCacheKey(prefix, params) == AppTag + ":" + prefix + ":" + Join("|", RenderPairs(params, names))
  {
    SortedUnique(SortStrings(Keys(params)), names);
  }

  // ---------------------------------------------------------------------
  // `retryStrategy`: the reconnect back-off.
  // ---------------------------------------------------------------------

  const RetryStepMs: nat := 50
  const RetryCapMs: nat := 2000

  /** `Math.min(times * 50, 2000)`: the delay before reconnect attempt `times`. */
  function RetryDelay(times: nat): (delay: nat)
    ensures delay <= RetryCapMs
    ensures times <= 40 ==> delay == times * RetryStepMs
    ensures times >= 40 ==> delay == RetryCapMs
  {
    if times * RetryStepMs < RetryCapMs then times * RetryStepMs else RetryCapMs
  }

  /** Later attempts never wait less. */
  lemma RetryDelayMonotone(a: nat, b: nat)
    requires a <= b
    ensures RetryDelay(a) <= RetryDelay(b)
  {
  }

  // ---------------------------------------------------------------------
  // The store: what Redis GET, SETEX and KEYS+DEL do to it.
  // ---------------------------------------------------------------------

  /** Seconds `setCache` keeps an entry when no TTL is given. */
  const DefaultTtlSeconds: int := 86400

  datatype Entry<V> = Entry(value: V, expiresAt: int)

  /** What the cache functions throw. */
  datatype CacheError =
    | Unavailable       // the client was never created
    | NotInitialized    // `connectRedis` without a client
    | ConnectionFailed  // `redis.connect()` rejected
    | NotConnected      // the connection flag is down
    | GetFailed         // GET failed on the server or the network
    | SetFailed         // SETEX failed, including a TTL Redis refuses
    | ClearFailed       // KEYS or DEL failed

  /** What GET at time `now` returns: the value while its TTL has not run out. */
  function Lookup<V>(entries: map<string, Entry<V>>, now: int, key: string): (r: Option<V>)
    ensures r.Some? <==> key in entries && now < entries[key].expiresAt
    ensures r.Some? ==> r.value == entries[key].value
  {
    if key in entries && now < entries[key].expiresAt then Some(entries[key].value) else None
  }

  /** SETEX at time `now`: the entry for `key` is replaced and its TTL restarts. */
  function Stored<V>(entries: map<string, Entry<V>>, now: int, key: string, value: V, ttl: int)
    : (r: map<string, Entry<V>>)
    ensures r.Keys == entries.Keys + {key}
    ensures r[key] == Entry(value, now + ttl)
    ensures forall k :: k in entries && k != key ==> r[k] == entries[k]
  {
    entries[key := Entry(value, now + ttl)]
  }

  /** DEL of every key KEYS matched. */
  function Purged<V>(entries: map<string, Entry<V>>, matches: string -> bool): (r: map<string, Entry<V>>)
    ensures forall k :: k in r <==> k in entries && !matches(k)
    ensures forall k :: k in r ==> r[k] == entries[k]
  {
    map k | k in entries && !matches(k) :: entries[k]
  }

  /** A value written with a TTL is read back unchanged until the TTL has run out. */
  lemma StoredThenLookup<V>(entries: map<string, Entry<V>>, now: int, key: string, value: V, ttl: int, later: int)
    requires now <= later
    ensures Lookup(Stored(entries, now, key, value, ttl), later, key)
            == if later < now + ttl then Some(value) else None
  {
  }

  /** Writing one key leaves every other key as it was. */
  lemma StoredOtherKey<V>(entries: map<string, Entry<V>>, now: int, key: string, value: V, ttl: int, other: string, t: int)
    requires other != key
    ensures Lookup(Stored(entries, now, key, value, ttl), t, other) == Lookup(entries, t, other)
  {
  }

  /** A purge deletes exactly the matching keys; with no match it changes nothing. */
  lemma PurgedExactly<V>(entries: map<string, Entry<V>>, matches: string -> bool, key: string, t: int)
    ensures Lookup(Purged(entries, matches), t, key) == if matches(key) then None else Lookup(entries, t, key)
    ensures (forall k :: k in entries ==> !matches(k)) ==> Purged(entries, matches) == entries
  {
  }

  /**
   * The Redis client and the module's `redisConnected` flag. `hasClient` is
   * `redis !== null`; the event handlers and `connectRedis` move the flag;
   * `getCache`, `setCache` and `clearCache` fail closed while it is down.
   */
  class CacheStore<V> {
    var entries: map<string, Entry<V>>
    var now: int
    var connected: bool
    const hasClient: bool

    /** The client is created with `lazyConnect`, so the flag starts down;
        the server it will reach keeps whatever entries it already holds, at
        its own clock. */
    constructor (hasClient: bool, entries: map<string, Entry<V>>, now: int)
      ensures this.hasClient == hasClient
      ensures this.entries == entries && this.now == now && !connected
    {
      this.hasClient := hasClient;
      this.entries := entries;
      this.now := now;
      connected := false;
    }

    /** `isRedisConnected()`. */
    function IsConnected(): (r: bool)
      reads this
      ensures r ==> hasClient
      ensures r <==> connected && hasClient
    {
      connected && hasClient
    }

    /** The 'connect' event. */
    method OnConnect()
      modifies this`connected
      ensures connected
    {
      connected := true;
    }

    /** The 'ready' event. */
    method OnReady()
      modifies this`connected
      ensures connected
    {
      connected := true;
    }

    /** The 'error' event (the handler's rethrow escapes into the client). */
    method OnError()
      modifies this`connected
      ensures !connected
    {
      connected := false;
    }

    /** The 'close' event. */
    method OnClose()
      modifies this`connected
      ensures !connected
    {
      connected := false;
    }

    /** `connectRedis()`; `reachable` is whether `redis.connect()` resolves. */
    method Connect(reachable: bool) returns (r: Result<bool, CacheError>)
      modifies this`connected
      ensures !hasClient ==> r == Err(NotInitialized)
      ensures hasClient && !reachable ==> r == Err(ConnectionFailed)
      ensures r.Ok? <==> hasClient && reachable
      ensures connected == if r.Ok? then true else old(connected)
      ensures r.Ok? ==> r.value
    {
      if !hasClient {
        return Err(NotInitialized);
      }
      if !reachable {
        return Err(ConnectionFailed);
      }
      connected := true;
      r := Ok(true);
    }

    /** `getCache(key)`; `fault` is a failure of GET itself. */
    method Get(key: string, fault: bool) returns (r: Result<Option<V>, CacheError>)
      ensures !hasClient ==> r == Err(Unavailable)
      ensures hasClient && !connected ==> r == Err(NotConnected)
      ensures IsConnected() && fault ==> r == Err(GetFailed)
      ensures r.Ok? <==> IsConnected() && !fault
      ensures r.Ok? ==> r.value == Lookup(entries, now, key)
    {
      if !hasClient {
        return Err(Unavailable);
      }
      if !connected {
        return Err(NotConnected);
      }
      if fault {
        return Err(GetFailed);
      }
      r := Ok(Lookup(entries, now, key));
    }

    /** `setCache(key, value, ttl)`; Redis refuses a TTL that is not positive. */
    method Set(key: string, value: V, ttl: int, fault: bool) returns (r: Result<bool, CacheError>)
      modifies this`entries
      ensures !hasClient ==> r == Err(Unavailable)
      ensures hasClient && !connected ==> r == Err(NotConnected)
      ensures IsConnected() && (fault || ttl <= 0) ==> r == Err(SetFailed)
      ensures r.Ok? <==> IsConnected() && !fault && ttl > 0
      ensures r.Ok? ==> r.value && entries == Stored(old(entries), now, key, value, ttl)
      ensures r.Err? ==> entries == old(entries)
    {
      if !hasClient {
        return Err(Unavailable);
      }
      if !connected {
        return Err(NotConnected);
      }
      if fault || ttl <= 0 {
        return Err(SetFailed);
      }
      entries := Stored(entries, now, key, value, ttl);
      r := Ok(true);
    }

    /** `setCache(key, value)` with the TTL left at its default of one day. */
    method SetWithDefaultTtl(key: string, value: V, fault: bool) returns (r: Result<bool, CacheError>)
      modifies this`entries
      ensures r.Ok? <==> IsConnected() && !fault
      ensures r.Ok? ==> key in entries && entries[key] == Entry(value, now + DefaultTtlSeconds)
      ensures r.Ok? ==> entries == Stored(old(entries), now, key, value, DefaultTtlSeconds)
      ensures r.Err? ==> entries == old(entries)
    {
      r := Set(key, value, DefaultTtlSeconds, fault);
    }

    /** `clearCache(pattern)`; `matches` is Redis's glob test for the pattern. */
    method Clear(matches: string -> bool, fault: bool) returns (r: Result<(), CacheError>)
      modifies this`entries
      ensures !hasClient ==> r == Err(Unavailable)
      ensures hasClient && !connected ==> r == Err(NotConnected)
      ensures IsConnected() && fault ==> r == Err(ClearFailed)
      ensures r.Ok? <==> IsConnected() && !fault
      ensures r.Ok? ==> entries == Purged(old(entries), matches)
      ensures r.Err? ==> entries == old(entries)
    {
      if !hasClient {
        return Err(Unavailable);
      }
      if !connected {
        return Err(NotConnected);
      }
      if fault {
        return Err(ClearFailed);
      }
      entries := Purged(entries, matches);
      r := Ok(());
    }

    /** Time passes on the Redis server. */
    method Advance(seconds: nat)
      modifies this`now
      ensures now == old(now) + seconds
    {
      now := now + seconds;
    }
  }

  /** `setCache(k, v, ttl)` then `getCache(k)` before the TTL runs out returns `v`. */
  method SetThenGet<V>(store: CacheStore<V>, key: string, value: V, ttl: int, wait: nat)
    returns (r: Result<Option<V>, CacheError>)
    requires store.IsConnected() && wait < ttl
    modifies store
    ensures r == Ok(Some(value))
  {
    var written := store.Set(key, value, ttl, false);
    store.Advance(wait);
    r := store.Get(key, false);
  }

  /** Once the TTL has run out the same read misses. */
  method SetThenExpire<V>(store: CacheStore<V>, key: string, value: V, ttl: int, wait: nat)
    returns (r: Result<Option<V>, CacheError>)
    requires store.IsConnected() && 0 < ttl <= wait
    modifies store
    ensures r == Ok(None)
  {
    var written := store.Set(key, value, ttl, false);
    store.Advance(wait);
    r := store.Get(key, false);
  }

  /** With the flag down every operation fails and the store is untouched. */
  method DisconnectedFailsClosed<V>(store: CacheStore<V>, key: string, value: V, ttl: int, matches: string -> bool)
    returns (got: Result<Option<V>, CacheError>, written: Result<bool, CacheError>, cleared: Result<(), CacheError>)
    requires store.hasClient
    modifies store
    ensures got == Err(NotConnected) && written == Err(NotConnected) && cleared == Err(NotConnected)
    ensures store.entries == old(store.entries) && !store.connected
  {
    store.OnClose();
    got := store.Get(key, false);
    written := store.Set(key, value, ttl, false);
    cleared := store.Clear(matches, false);
  }
}
