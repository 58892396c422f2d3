/** The controller's in-memory result cache: entries set with the standard
    TTL of one hour, read back only while they are still live. Time is an
    explicit millisecond clock. */
module ResultCache {
  import opened Wrappers

  /** `stdTTL: 3600`, in seconds. */
  const TtlSeconds: nat := 3600
  const TtlMillis: nat := TtlSeconds * 1000

  /** A stored value and the instant (ms) after which it is expired. */
  datatype Entry<V> = Entry(value: V, expiry: int)

  type Cache<V> = map<string, Entry<V>>

  /** The entry under `key` has not expired at `now`. */
  predicate Live<V>(c: Cache<V>, key: string, now: int) {
    key in c && now <= c[key].expiry
  }

  /** `cache.get(key)`. */
  function Get<V>(c: Cache<V>, key: string, now: int): (r: Option<V>)
    ensures r.Some? <==> Live(c, key, now)
    ensures r.Some? ==> r.value == c[key].value
  {
    if key in c && now <= c[key].expiry then Some(c[key].value) else None
  }

  /** `cache.set(key, value)` at time `now`. */
  function Put<V>(c: Cache<V>, key: string, v: V, now: int): (r: Cache<V>)
    ensures key in r && r[key] == Entry(v, now + TtlMillis)
    ensures r.Keys == c.Keys + {key}
    ensures forall k :: k in c && k != key ==> r[k] == c[k]
  {
    c[key := Entry(v, now + TtlMillis)]
  }

  /** A value set at `t` is returned for the whole hour after `t`. */
  lemma GetAfterPut<V>(c: Cache<V>, key: string, v: V, t: int, now: int)
    requires t <= now <= t + TtlMillis
    ensures Get(Put(c, key, v, t), key, now) == Some(v)
  {
  }

  /** ... and never after it. */
  lemma ExpiredAfterTtl<V>(c: Cache<V>, key: string, v: V, t: int, now: int)
    requires now > t + TtlMillis
    ensures Get(Put(c, key, v, t), key, now) == None
  {
  }

  /** Setting one key leaves every other key's reads as they were. */
  lemma PutOtherKey<V>(c: Cache<V>, key: string, v: V, t: int, other: string, now: int)
    requires other != key
    ensures Get(Put(c, key, v, t), other, now) == Get(c, other, now)
  {
  }
}
