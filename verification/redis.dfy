/**
  The Redis commands the program issues, on a keyspace whose entries may carry
  a deadline.  An entry past its deadline is treated as absent by every command.
 */
module Redis {
  import opened SessionTime
  import opened Wrappers

  datatype Slot<V> = Slot(value: V, deadline: Option<Time>)

  type Keyspace<V> = map<string, Slot<V>>

  // redis.KeepTTL of the client library.
  const KEEP_TTL: int := -1

  predicate Alive<V>(s: Slot<V>, now: Time) {
    s.deadline.None? || now < s.deadline.value
  }

  predicate Has<V>(ks: Keyspace<V>, now: Time, k: string) {
    k in ks && Alive(ks[k], now)
  }

  function Get<V>(ks: Keyspace<V>, now: Time, k: string): Option<V> {
    if Has(ks, now, k) then Some(ks[k].value) else None
  }

  // SET key value KEEPTTL
  function SetKeepTtl<V>(ks: Keyspace<V>, now: Time, k: string, v: V): Keyspace<V> {
    ks[k := Slot(v, if Has(ks, now, k) then ks[k].deadline else None)]
  }

  // SET key value, with the client library's reading of its expiration argument.
  function Set<V>(ks: Keyspace<V>, now: Time, k: string, v: V, expiration: int): Keyspace<V> {
    if expiration > 0 then ks[k := Slot(v, Some(now + expiration))]
    else if expiration == KEEP_TTL then SetKeepTtl(ks, now, k, v)
    else ks[k := Slot(v, None)]
  }

  function Del<V>(ks: Keyspace<V>, k: string): Keyspace<V> {
    ks - {k}
  }

  // SET key value NX PX: the lock library's way to obtain a lock.
  function SetIfAbsent<V>(ks: Keyspace<V>, now: Time, k: string, v: V, expiration: int): Keyspace<V> {
    if Has(ks, now, k) then ks else ks[k := Slot(v, Some(now + expiration))]
  }

  // The lock library's release script: delete the key if it still holds the caller's value.
  function DelIfEqual<V(==)>(ks: Keyspace<V>, now: Time, k: string, v: V): Keyspace<V> {
    if Get(ks, now, k) == Some(v) then Del(ks, k) else ks
  }

  /** How long a value that is set can be read; nothing else changes. */
  lemma SetLasts<V>(ks: Keyspace<V>, now: Time, k: string, v: V, expiration: int, t: Time, other: string)
    requires now <= t && other != k
    ensures Get(Set(ks, now, k, v, expiration), t, k) == Some(v) <==>
            && (expiration > 0 ==> t < now + expiration)
            && (expiration == -1 && Has(ks, now, k) ==> Has(ks, t, k))
    ensures Get(Set(ks, now, k, v, expiration), t, other) == Get(ks, t, other)
  {
  }

  /**
    A lock that was free is held by the caller alone for as long as it lasts;
    releasing it in that time frees it, and a release with another value or
    after that time leaves everything as it is.
   */
  lemma LockRoundTrip<V>(ks: Keyspace<V>, now: Time, k: string, v: V, other: V, lease: int, t: Time)
    requires !Has(ks, now, k) && now <= t && v != other
    ensures var held := SetIfAbsent(ks, now, k, v, lease);
      && (Get(held, t, k) == Some(v) <==> t < now + lease)
      && SetIfAbsent(held, t, k, other, lease) == (if t < now + lease then held else ks[k := Slot(other, Some(t + lease))])
      && DelIfEqual(held, t, k, v) == (if t < now + lease then ks - {k} else held)
      && DelIfEqual(held, t, k, other) == held
  {
  }

  /**
    An update keeps an entry's deadline exactly when the entry is there to be
    updated.  An entry that was deleted or ran out between the two halves of an
    update comes back without any deadline.
   */
  lemma KeepTtlIff<V>(ks: Keyspace<V>, now: Time, k: string, v: V)
    ensures var after := SetKeepTtl(ks, now, k, v);
      && Get(after, now, k) == Some(v)
      && (Has(ks, now, k) ==> after[k].deadline == ks[k].deadline)
      && (!Has(ks, now, k) ==> forall later :: Get(after, later, k) == Some(v))
  {
  }
}
