/** The Redis commands the backend issues, on a store whose keys may carry a deadline.
    Times are milliseconds; a key is gone from its deadline on. An expired key stays in the
    map until it is written again, which no command can tell from its being absent. */
module Redis {
  import opened Wrappers

  datatype Entry<V> = Entry(value: V, deadline: Option<int>)

  type Store<K(==), V> = map<K, Entry<V>>

  predicate Live<V>(e: Entry<V>, now: int) {
    e.deadline.Some? ==> now < e.deadline.value
  }

  predicate Exists<K, V>(s: Store<K, V>, key: K, now: int) {
    key in s && Live(s[key], now)
  }

  function Get<K, V>(s: Store<K, V>, key: K, now: int): Option<V> {
    if Exists(s, key, now) then Some(s[key].value) else None
  }

  function SetEx<K, V>(s: Store<K, V>, key: K, value: V, ttl: int, now: int): Store<K, V> {
    s[key := Entry(value, Some(now + ttl))]
  }

  function Delete<K, V>(s: Store<K, V>, key: K): Store<K, V> {
    s - {key}
  }

  /** INCR keeps the TTL of a live key; an absent key starts at 1 with no TTL. */
  function Incr<K>(s: Store<K, int>, key: K, now: int): Store<K, int> {
    if Exists(s, key, now) then s[key := s[key].(value := s[key].value + 1)] else s[key := Entry(1, None)]
  }

  /** EXPIRE, with or without NX. A non-positive TTL deletes the key. */
  function Expire<K, V>(s: Store<K, V>, key: K, ttl: int, nx: bool, now: int): Store<K, V> {
    if !Exists(s, key, now) then s
    else if nx && s[key].deadline.Some? then s
    else if ttl <= 0 then s - {key}
    else s[key := s[key].(deadline := Some(now + ttl))]
  }
}
