/**
  The Redis string store both verification services write to, reduced to what
  they use: get, set with a time-to-live in seconds, and delete. An entry
  records the instant (in milliseconds) from which it has expired; an expired
  entry reads as absent, as Redis evicts it.
*/
module KeyValueStore {
  import opened Wrappers

  datatype Entry = Entry(value: string, expiresAt: int)

  type Store = map<string, Entry>

  /** The key holds a value that has not yet expired at `now`. */
  predicate Live(s: Store, key: string, now: int) {
    key in s && now < s[key].expiresAt
  }

  /** opsForValue().get: the value under a live key, null otherwise. */
  function Get(s: Store, key: string, now: int): (r: Option<string>)
    ensures r.Some? <==> Live(s, key, now)
    ensures r.Some? ==> r.value == s[key].value
  {
    if Live(s, key, now) then Some(s[key].value) else None
  }

  /** opsForValue().set(key, value, ttl, TimeUnit.SECONDS), issued at `now`:
      the value is readable for exactly `ttlSeconds` seconds, and no other key
      changes. */
  function Set(s: Store, key: string, value: string, ttlSeconds: nat, now: int): (r: Store)
    ensures forall t :: now <= t < now + ttlSeconds * 1000 ==> Get(r, key, t) == Some(value)
    ensures forall t :: t >= now + ttlSeconds * 1000 ==> Get(r, key, t).None?
    ensures forall k, t :: k != key ==> Get(r, k, t) == Get(s, k, t)
  {
    s[key := Entry(value, now + ttlSeconds * 1000)]
  }

  /** redisTemplate.delete(key): the key reads as absent, no other key changes. */
  function Delete(s: Store, key: string): (r: Store)
    ensures forall t :: Get(r, key, t).None?
    ensures forall k, t :: k != key ==> Get(r, k, t) == Get(s, k, t)
  {
    s - {key}
  }
}
