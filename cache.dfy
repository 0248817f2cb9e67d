/**
 * `InMemoryCache`, the fallback used in place of Redis: a map from keys to
 * string values with an optional expiry time, where reading an expired
 * entry evicts it. The clock (`Date.now()`, milliseconds) is a parameter of
 * every operation that reads it.
 */
module Cache {
  import opened Wrappers

  /** A stored value and its expiry time in milliseconds, if any. */
  datatype Entry = Entry(value: string, expiry: Option<int>)

  type Store = map<string, Entry>

  /** `duration ? now + duration * 1000 : undefined`: an absent or zero duration never expires. */
  function ExpiryFor(duration: Option<int>, now: int): (e: Option<int>)
    ensures e.None? <==> duration.None? || duration.value == 0
    ensures e.Some? ==> e.value == now + duration.value * 1000
  {
    if duration.Some? && duration.value != 0 then Some(now + duration.value * 1000) else None
  }

  /** `item.expiry && item.expiry < now`: an expiry of 0 is falsy and so never fires. */
  predicate Expired(e: Entry, now: int) {
    e.expiry.Some? && e.expiry.value != 0 && e.expiry.value < now
  }

  /** The store after `set(key, value, mode, duration)` at time now. */
  function Written(s: Store, key: string, value: string, duration: Option<int>, now: int): Store {
    s[key := Entry(value, ExpiryFor(duration, now))]
  }

  /** What `get(key)` returns at time now. */
  function Read(s: Store, key: string, now: int): Option<string> {
    if key !in s || Expired(s[key], now) then None else Some(s[key].value)
  }

  /** The store after `get(key)` at time now: an expired entry is gone. */
  function AfterRead(s: Store, key: string, now: int): Store {
    if key in s && Expired(s[key], now) then s - {key} else s
  }

  /** The store after `del(key)`. */
  function Deleted(s: Store, key: string): Store {
    s - {key}
  }

  /**
   * A value just written is read back until it expires: forever without a
   * duration, and up to and including the instant now + duration * 1000 with one.
   */
  lemma ReadAfterWrite(s: Store, key: string, value: string, duration: Option<int>, now: int, later: int)
    ensures duration.None? || duration.value == 0 ==> Read(Written(s, key, value, duration, now), key, later) == Some(value)
    ensures duration.Some? && duration.value != 0 && now + duration.value * 1000 != 0 ==>
      (Read(Written(s, key, value, duration, now), key, later) == Some(value) <==> later <= now + duration.value * 1000)
  {
  }

  /** Writing or deleting one key leaves what every other key reads unchanged. */
  lemma OtherKeysUnaffected(s: Store, key: string, other: string, value: string, duration: Option<int>, now: int, t: int)
    requires other != key
    ensures Read(Written(s, key, value, duration, now), other, t) == Read(s, other, t)
    ensures Read(Deleted(s, key), other, t) == Read(s, other, t)
    ensures Read(AfterRead(s, key, now), other, t) == Read(s, other, t)
  {
  }

  /** A deleted key reads as absent, whenever it is read. */
  lemma ReadAfterDelete(s: Store, key: string, t: int)
    ensures Read(Deleted(s, key), key, t) == None
    ensures key !in Deleted(s, key)
  {
  }

  /**
   * Reading changes nothing a later read could see: the same read again
   * returns the same value, and only an expired entry is removed.
   */
  lemma ReadIsStable(s: Store, key: string, now: int)
    ensures Read(AfterRead(s, key, now), key, now) == Read(s, key, now)
    ensures AfterRead(AfterRead(s, key, now), key, now) == AfterRead(s, key, now)
    ensures Read(s, key, now).Some? ==> AfterRead(s, key, now) == s
    ensures Read(s, key, now).None? ==> key !in AfterRead(s, key, now)
    ensures AfterRead(s, key, now).Keys <= s.Keys
  {
  }

  /** Once an entry has expired it stays expired as the clock moves on. */
  lemma ExpiryIsPermanent(e: Entry, now: int, later: int)
    requires Expired(e, now) && now <= later
    ensures Expired(e, later)
  {
  }

  class InMemoryCache {
    var store: Store

    constructor()
      ensures store == map[]
    {
      store := map[];
    }

    /** `set(key, value, mode, duration)`; `mode` ('EX') is ignored and an old entry is replaced. */
    method Set(key: string, value: string, mode: string, duration: Option<int>, now: int)
      modifies this
      ensures store == Written(old(store), key, value, duration, now)
    {
      var expiry := if duration.Some? && duration.value != 0 then Some(now + duration.value * 1000) else None;
      store := store[key := Entry(value, expiry)];
    }

    /** `get(key)`: null when absent or expired, the latter also removing the entry. */
    method Get(key: string, now: int) returns (r: Option<string>)
      modifies this
      ensures r == Read(old(store), key, now)
      ensures store == AfterRead(old(store), key, now)
    {
      if key !in store {
        return None;
      }
      var item := store[key];
      if item.expiry.Some? && item.expiry.value != 0 && item.expiry.value < now {
        store := store - {key};
        return None;
      }
      r := Some(item.value);
    }

    /** `del(key)`. */
    method Del(key: string)
      modifies this
      ensures store == Deleted(old(store), key)
    {
      store := store - {key};
    }
  }
}
