/**
 * The expiring cache: payloads keyed by locator, each stamped with the time
 * it was stored.  Reads never look at the stamp; a periodic sweep deletes
 * every entry older than the interval.  Time is an explicit `now` argument.
 */
module PokeCache {
  import opened Common

  /** One stored payload and the moment it was stored. */
  datatype Entry = Entry(createdAt: nat, val: Bytes)

  /** The sweep's test: the entry's age is strictly greater than the interval. */
  predicate IsStale(e: Entry, now: nat, interval: nat)
  {
    now - e.createdAt > interval
  }

  /** The entries one sweep at time `now` leaves behind. */
  function Reaped(m: map<string, Entry>, now: nat, interval: nat): (r: map<string, Entry>)
    ensures forall k :: k in r <==> k in m && now - m[k].createdAt <= interval
    ensures forall k :: k in r ==> r[k] == m[k]
    ensures r.Keys <= m.Keys
  {
    map k | k in m && !IsStale(m[k], now, interval) :: m[k]
  }

  /**
   * The entries part-way through a sweep: the keys still `pending` have not
   * been examined yet and are all still there; of the rest only the fresh
   * ones remain.
   */
  ghost function PartlyReaped(m: map<string, Entry>, pending: set<string>, now: nat, interval: nat): map<string, Entry>
  {
    map k | k in m && (k in pending || !IsStale(m[k], now, interval)) :: m[k]
  }

  /** Sweeping twice at the same moment removes nothing more. */
  lemma ReapedIdempotent(m: map<string, Entry>, now: nat, interval: nat)
    ensures Reaped(Reaped(m, now, interval), now, interval) == Reaped(m, now, interval)
  {
  }

  /**
   * An earlier sweep followed by a later one leaves what the later one alone
   * leaves: staleness only grows with time.
   */
  lemma ReapedLaterSubsumes(m: map<string, Entry>, earlier: nat, later: nat, interval: nat)
    requires earlier <= later
    ensures Reaped(Reaped(m, earlier, interval), later, interval) == Reaped(m, later, interval)
  {
  }

  /** The key-value store shared by every retrieval. */
  class Cache {
    var entries: map<string, Entry>
    /** The age beyond which a sweep evicts an entry. */
    const interval: nat

    /** `NewCache`: an empty store with the given interval. */
    constructor (interval: nat)
      ensures entries == map[]
      ensures this.interval == interval
    {
      entries := map[];
      this.interval := interval;
    }

    /** Insert or overwrite the entry for `key`, stamped `now`. */
    method Add(key: string, val: Bytes, now: nat)
      modifies this
      ensures entries == old(entries)[key := Entry(now, val)]
      ensures entries.Keys == old(entries).Keys + {key}
      ensures forall k :: k != key && k in old(entries) ==> entries[k] == old(entries)[k]
    {
      entries := entries[key := Entry(now, val)];
    }

    /**
     * The stored payload and `true` when `key` is present, whatever the
     * entry's age; an empty payload and `false` when it is absent.
     */
    method Get(key: string) returns (val: Bytes, ok: bool)
      ensures ok <==> key in entries
      ensures ok ==> val == entries[key].val
      ensures !ok ==> val == []
    {
      if key in entries {
        val, ok := entries[key].val, true;
      } else {
        val, ok := [], false;
      }
    }

    /** One tick of the sweep: delete, key by key, every stale entry. */
    method Reap(now: nat)
      modifies this
      ensures entries == Reaped(old(entries), now, interval)
    {
      ghost var start := entries;
      var pending := entries.Keys;
      while pending != {}
        invariant pending <= start.Keys
        invariant entries == PartlyReaped(start, pending, now, interval)
        decreases pending
      {
        var k :| k in pending;
        if IsStale(entries[k], now, interval) {
          entries := entries - {k};
        }
        pending := pending - {k};
      }
    }
  }
}
