/** The part of Redis the platform relies on: a family of keys, each holding a value and an
    optional instant from which it reads as missing.  Every module keeps the family it uses as
    one map and applies these commands to it; the clock reading is an argument. */
module RedisStore {
  datatype Option<+T> = None | Some(value: T)

  datatype Entry<+V> = Entry(value: V, expiry: Option<real>)

  type JobId = nat
  type TenantId = nat

  predicate Alive<V>(e: Entry<V>, now: real) {
    e.expiry.None? || now < e.expiry.value
  }

  predicate Live<K, V>(db: map<K, Entry<V>>, k: K, now: real) {
    k in db && Alive(db[k], now)
  }

  /** GET */
  function Get<K, V>(db: map<K, Entry<V>>, k: K, now: real): Option<V> {
    if Live(db, k, now) then Some(db[k].value) else None
  }

  /** SETEX */
  function SetEx<K, V>(db: map<K, Entry<V>>, k: K, v: V, now: real, ttl: real): map<K, Entry<V>> {
    db[k := Entry(v, Some(now + ttl))]
  }

  /** GET on a counter, where the callers read a missing key as zero. */
  function Count<K>(db: map<K, Entry<int>>, k: K, now: real): int {
    if Live(db, k, now) then db[k].value else 0
  }

  /** INCR (`delta` = 1) and DECR (`delta` = -1): the expiry of a live key is kept, a missing key
      starts from zero without one. */
  function Add<K>(db: map<K, Entry<int>>, k: K, delta: int, now: real): map<K, Entry<int>> {
    db[k := Entry(Count(db, k, now) + delta, if Live(db, k, now) then db[k].expiry else None)]
  }

  /** EXPIRE */
  function Expire<K, V>(db: map<K, Entry<V>>, k: K, now: real, ttl: real): map<K, Entry<V>> {
    if Live(db, k, now) then db[k := Entry(db[k].value, Some(now + ttl))] else db
  }

  // ---- What the commands promise ----

  /** A value set with a time to live is read until that time is over, and no other key changes. */
  lemma SetExLaw<K, V>(db: map<K, Entry<V>>, k: K, v: V, now: real, ttl: real, other: K, at: real)
    ensures Get(SetEx(db, k, v, now, ttl), k, at) == if at < now + ttl then Some(v) else None
    ensures other != k ==> Get(SetEx(db, k, v, now, ttl), other, at) == Get(db, other, at)
  {
  }

  /** A counter goes up or down from what it reads as; a live one keeps its expiry, a missing one gets
      none; and no other key changes. */
  lemma AddLaw<K>(db: map<K, Entry<int>>, k: K, delta: int, now: real, other: K, at: real)
    ensures Count(Add(db, k, delta, now), k, now) == Count(db, k, now) + delta
    ensures Count(Add(db, k, delta, now), k, at)
            == if Live(db, k, now) && !Live(db, k, at) then 0 else Count(db, k, now) + delta
    ensures other != k ==> Count(Add(db, k, delta, now), other, at) == Count(db, other, at)
  {
  }

  /** EXPIRE gives a live key a new life, and leaves a missing one missing. */
  lemma ExpireLaw<K, V>(db: map<K, Entry<V>>, k: K, now: real, ttl: real, other: K, at: real)
    requires now <= at
    ensures Live(db, k, now) ==>
        Get(Expire(db, k, now, ttl), k, at) == if at < now + ttl then Some(db[k].value) else None
    ensures !Live(db, k, now) ==> Get(Expire(db, k, now, ttl), k, at).None?
    ensures other != k ==> Get(Expire(db, k, now, ttl), other, at) == Get(db, other, at)
  {
  }
}
