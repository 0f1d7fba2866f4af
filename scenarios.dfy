/**
 * Clients of the cache and the accessor, each on a cache of its own: what a
 * caller can conclude from the contracts alone about sequences of calls.
 */
module Scenarios {
  import opened Common
  import opened Http
  import opened PokeCache
  import opened PokeApi

  /** A key never stored misses. */
  method FreshCacheMisses(interval: nat, key: string) returns (val: Bytes, ok: bool)
    ensures !ok && val == []
  {
    var c := new Cache(interval);
    val, ok := c.Get(key);
  }

  /**
   * A stored payload is returned by the next read, however long ago it was
   * stored: reads do not expire entries.
   */
  method AddThenGet(interval: nat, key: string, v: Bytes, storedAt: nat) returns (val: Bytes, ok: bool)
    ensures ok && val == v
  {
    var c := new Cache(interval);
    c.Add(key, v, storedAt);
    val, ok := c.Get(key);
  }

  /** Of two writes to one key the later wins, and other keys keep their payloads. */
  method OverwriteLaterWins(interval: nat, key: string, other: string, v0: Bytes, v1: Bytes, v2: Bytes,
                            t0: nat, t1: nat, t2: nat)
    returns (val: Bytes, ok: bool, otherVal: Bytes, otherOk: bool)
    requires other != key
    ensures ok && val == v2
    ensures otherOk && otherVal == v0
  {
    var c := new Cache(interval);
    c.Add(other, v0, t0);
    c.Add(key, v1, t1);
    c.Add(key, v2, t2);
    val, ok := c.Get(key);
    otherVal, otherOk := c.Get(other);
  }

  /**
   * After a sweep at `now`, a payload stored at `storedAt` is still there
   * exactly when its age does not exceed the interval.
   */
  method SweepExpiry(interval: nat, key: string, v: Bytes, storedAt: nat, now: nat)
    returns (val: Bytes, ok: bool)
    ensures ok <==> now - storedAt <= interval
    ensures ok ==> val == v
  {
    var c := new Cache(interval);
    c.Add(key, v, storedAt);
    c.Reap(now);
    val, ok := c.Get(key);
  }

  /**
   * Two retrievals of one locator, with no sweep in between: after a
   * successful first one the second fetches nothing and yields the same
   * value.
   */
  method RepeatedRetrieval<T>(interval: nat, url: string, t1: nat, t2: nat,
                              fetch1: string -> Outcome, fetch2: string -> Outcome,
                              decode: Bytes -> Option<T>)
    returns (r1: Result<T>, f1: seq<string>, r2: Result<T>, f2: seq<string>)
    ensures f1 == [url]
    ensures r1.Ok? ==> f2 == [] && r2 == r1
    ensures r1.Err? ==> f2 == [url]
  {
    var c := new Cache(interval);
    ghost var m := c.entries;
    r1, f1 := FetchThrough(c, url, t1, fetch1, decode);
    if r1.Ok? {
      AccessRepeated(m, url, t1, t2, fetch1, fetch2, decode);
    }
    r2, f2 := FetchThrough(c, url, t2, fetch2, decode);
  }

  /**
   * A fetched body that does not decode is reported as a decode error and
   * leaves nothing cached.
   */
  method DecodeFailureIsolation<T>(interval: nat, url: string, now: nat,
                                   fetch: string -> Outcome, decode: Bytes -> Option<T>)
    returns (r: Result<T>, cached: bool)
    requires fetch(url).Delivered? && decode(fetch(url).data).None?
    ensures r == Err(DecodeError)
    ensures !cached
  {
    var c := new Cache(interval);
    var fetches;
    r, fetches := FetchThrough(c, url, now, fetch, decode);
    var val, ok := c.Get(url);
    cached := ok;
  }
}
