/**
 * The best-effort JSON cache (packages/neptune/src/util/cache.ts): a Redis store reached
 * through `JSON.GET`, `JSON.SET` and `EXPIRE`, which may not be configured at all.
 * The store is a map from key to entry; an entry keeps its payload and the TTL last given to
 * `EXPIRE`. Whether a store call throws is a parameter of each call.
 */
module Cache {
  import opened Wrappers

  /** What a stored key holds: a parseable JSON document, or text `JSON.parse` rejects. */
  datatype Payload<V> = Json(value: V) | Malformed

  datatype Entry<V> = Entry(payload: Payload<V>, ttl: Option<int>)

  /** Which store calls of one operation throw (connection lost, command refused). */
  datatype StoreFaults = StoreFaults(getFails: bool, setFails: bool, expireFails: bool)

  /** The `if (ttl)` test: a TTL was given and is not 0. */
  predicate Truthy(ttl: Option<int>) {
    ttl.Some? && ttl.value != 0
  }

  /** What `JSON.parse` of the stored text yields on a reachable store: a miss or corrupt entry is `None`. */
  function Lookup<V>(entries: map<string, Entry<V>>, key: string): (r: Option<V>)
    ensures r.Some? <==> key in entries && entries[key].payload.Json?
  {
    if key in entries && entries[key].payload.Json? then Some(entries[key].payload.value) else None
  }

  /**
   * The entries after `JSON.SET key $ value` and, when `ttl` is truthy, `EXPIRE key ttl`.
   * `JSON.SET` leaves the key's expiry as it was; `EXPIRE` with a positive TTL sets it and
   * with a negative one deletes the key.
   */
  function AfterSet<V>(entries: map<string, Entry<V>>, key: string, value: V, ttl: Option<int>,
                       expireFails: bool): (r: map<string, Entry<V>>)
    ensures forall k :: k != key ==> (k in r <==> k in entries) && (k in r ==> r[k] == entries[k])
    ensures key in r ==> r[key].payload == Json(value)
    ensures key !in r <==> Truthy(ttl) && !expireFails && ttl.value < 0
    ensures Truthy(ttl) && !expireFails && ttl.value > 0 ==> r[key].ttl == ttl
    ensures !Truthy(ttl) || expireFails ==>
      r[key].ttl == (if key in entries then entries[key].ttl else None)
  {
    var kept := if key in entries then entries[key].ttl else None;
    var written := entries[key := Entry(Json(value), kept)];
    if !Truthy(ttl) || expireFails then written
    else if ttl.value > 0 then written[key := Entry(Json(value), ttl)]
    else written - {key}
  }

  /** What `jsonGet(key)` yields on a store in the given state. */
  function Read<V>(configured: bool, entries: map<string, Entry<V>>, key: string, callFails: bool)
    : (r: Option<V>)
    ensures !configured || callFails ==> r == None
    ensures configured && !callFails ==> r == Lookup(entries, key)
  {
    if !configured || callFails then None else Lookup(entries, key)
  }

  /**
   * The entries after a `jsonSet` on a configured or unconfigured store: no other key is
   * touched, and a write that reaches the store with no TTL or a positive one reads back.
   */
  function SetEntries<V>(configured: bool, entries: map<string, Entry<V>>, key: string, value: V,
                         ttl: Option<int>, faults: StoreFaults): (r: map<string, Entry<V>>)
    ensures forall k :: k != key ==> (k in r <==> k in entries) && (k in r ==> r[k] == entries[k])
    ensures !configured || faults.setFails ==> r == entries
    ensures configured && !faults.setFails && (!Truthy(ttl) || faults.expireFails || ttl.value > 0) ==>
      Lookup(r, key) == Some(value)
  {
    if configured && !faults.setFails then AfterSet(entries, key, value, ttl, faults.expireFails)
    else entries
  }

  /** A value written with no TTL or a positive one reads back; no other key is affected. */
  lemma ReadAfterSet<V>(entries: map<string, Entry<V>>, key: string, value: V, ttl: Option<int>,
                        expireFails: bool, other: string)
    requires !Truthy(ttl) || expireFails || ttl.value > 0
    requires other != key
    ensures Lookup(AfterSet(entries, key, value, ttl, expireFails), key) == Some(value)
    ensures Lookup(AfterSet(entries, key, value, ttl, expireFails), other) == Lookup(entries, other)
  {
  }

  class Store<V> {
    /** Whether `REDIS_HOST` and `REDIS_PORT` were set, so that a client exists. */
    const configured: bool
    var entries: map<string, Entry<V>>

    constructor (configured: bool, entries: map<string, Entry<V>>)
      ensures this.configured == configured && this.entries == entries
    {
      this.configured := configured;
      this.entries := entries;
    }

    /** What `jsonGet(key)` yields in the current state. */
    function Get(key: string, callFails: bool): (r: Option<V>)
      reads this
      ensures !configured || callFails ==> r == None
      ensures configured && !callFails ==> r == Lookup(entries, key)
    {
      Read(configured, entries, key, callFails)
    }

    /**
     * `jsonGet`: never throws. Without a store the optional call yields `undefined`, which
     * `JSON.parse` rejects; a failing call or unparseable text is caught; all three give `None`.
     */
    method JsonGet(key: string, callFails: bool) returns (r: Option<V>)
      ensures !configured ==> r == None
      ensures callFails ==> r == None
      ensures configured && !callFails ==> r == Lookup(entries, key)
    {
      if !configured || callFails {
        return None;
      }
      if key in entries && entries[key].payload.Json? {
        r := Some(entries[key].payload.value);
      } else {
        r := None;
      }
    }

    /**
     * `jsonSet`: without a store both optional calls do nothing and the result is `true`;
     * otherwise `false` exactly when `JSON.SET`, or the `EXPIRE` issued for a truthy TTL, throws.
     */
    method JsonSet(key: string, value: V, ttl: Option<int>, setFails: bool, expireFails: bool)
      returns (ok: bool)
      modifies this
      ensures !configured ==> ok && entries == old(entries)
      ensures configured && setFails ==> !ok && entries == old(entries)
      ensures configured && !setFails ==>
        entries == AfterSet(old(entries), key, value, ttl, expireFails)
        && ok == !(Truthy(ttl) && expireFails)
    {
      if !configured {
        return true;
      }
      if setFails {
        return false;
      }
      var kept := if key in entries then entries[key].ttl else None;
      entries := entries[key := Entry(Json(value), kept)];
      if Truthy(ttl) {
        if expireFails {
          return false;
        }
        if ttl.value > 0 {
          entries := entries[key := Entry(Json(value), ttl)];
        } else {
          entries := entries - {key};
        }
      }
      ok := true;
    }
  }
}
