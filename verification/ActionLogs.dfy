/** The log of executed actions that makes them idempotent for a time to live. */
module ActionLogs {
  import opened Prelude

  datatype Status = Ok | RetriedOk | Failed

  datatype Entry = Entry(timestamp: int, status: Status)

  /** What a log that never forgets answers. */
  predicate Remembered(history: map<string, Entry>, key: string, now: int, ttlMs: int) {
    key in history && now - history[key].timestamp <= ttlMs
  }

  /**
   `history` holds every entry that was ever set; no code reads it. `clock` is
   the latest time the log was asked about. Deleting entries, lazily or in bulk,
   must not be observable: every answer is the one `history` gives.
   */
  class ActionLog {
    const ttlMs: int
    var entries: map<string, Entry>
    ghost var history: map<string, Entry>
    ghost var clock: int

    ghost predicate Valid()
      reads this
    {
      && (forall k :: k in entries ==> k in history && entries[k] == history[k])
      && (forall k :: k in history && k !in entries ==> clock - history[k].timestamp > ttlMs)
    }

    constructor (ttl: int, ghost now: int)
      ensures Valid() && ttlMs == ttl && entries == map[] && history == map[] && clock == now
    {
      ttlMs, entries, history, clock := ttl, map[], map[], now;
    }

    /** Deletes the entry when it is too old. */
    method Has(key: string, now: int) returns (found: bool)
      requires Valid() && now >= clock
      modifies this
      ensures Valid() && history == old(history) && clock == now
      ensures found == Remembered(history, key, now, ttlMs)
      ensures entries == if found then old(entries) else old(entries) - {key}
    {
      clock := now;
      if key !in entries {
        return false;
      }
      if now - entries[key].timestamp > ttlMs {
        entries := entries - {key};
        return false;
      }
      return true;
    }

    method Get(key: string, now: int) returns (entry: Option<Entry>)
      requires Valid() && now >= clock
      modifies this
      ensures Valid() && history == old(history) && clock == now
      ensures entry == if Remembered(history, key, now, ttlMs) then Some(history[key]) else None
    {
      var found := Has(key, now);
      entry := if found then Some(entries[key]) else None;
    }

    method Set(key: string, entry: Entry)
      requires Valid()
      modifies this
      ensures Valid() && clock == old(clock)
      ensures entries == old(entries)[key := entry] && history == old(history)[key := entry]
    {
      entries, history := entries[key := entry], history[key := entry];
    }

    /** Drops every entry that is too old. */
    method Gc(now: int)
      requires Valid() && now >= clock
      modifies this
      ensures Valid() && history == old(history) && clock == now
      ensures forall k :: k in entries <==> k in old(entries) && now - old(entries)[k].timestamp <= ttlMs
      ensures forall k :: k in entries ==> entries[k] == old(entries)[k]
    {
      clock := now;
      var keys := entries.Keys;
      while keys != {}
        invariant Valid() && history == old(history) && clock == now && keys <= old(entries).Keys
        invariant forall k ::
          k in entries <==> k in old(entries) && (k in keys || now - old(entries)[k].timestamp <= ttlMs)
        invariant forall k :: k in entries ==> entries[k] == old(entries)[k]
        decreases |keys|
      {
        var key :| key in keys;
        if now - entries[key].timestamp > ttlMs {
          entries := entries - {key};
        }
        keys := keys - {key};
      }
    }

    method Size() returns (n: nat)
      ensures n == |entries|
    {
      n := |entries|;
    }
  }
}
