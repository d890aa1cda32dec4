/**
 * `ResultCache` of TP2/server_scraping.py: results by URL, each stamped with
 * the time it was stored, and dropped when read after more than `ttl` seconds.
 */
module Cache {
  import opened Wrappers
  import opened Tasks

  datatype Entry = Entry(stored: Time, data: Payload)

  /** `(now - timestamp).total_seconds() > self._ttl`: strictly older than the time to live. */
  predicate Expired(e: Entry, now: Time, ttl: int) {
    now - e.stored > ttl as real
  }

  /** What a read returns and the entries it leaves. */
  datatype Lookup = Lookup(data: Option<Payload>, entries: map<string, Entry>)

  /**
   * The outcome of `get(url)` at time `now`: nothing for an absent URL;
   * nothing, and the entry deleted, for an expired one; otherwise the stored
   * data with the cache untouched.
   */
  function Read(entries: map<string, Entry>, url: string, now: Time, ttl: int): (r: Lookup)
    ensures r.data.Some? <==> url in entries && !Expired(entries[url], now, ttl)
    ensures r.data.Some? ==> r.data.value == entries[url].data
    ensures r.entries.Keys <= entries.Keys
    ensures forall k | k in r.entries :: r.entries[k] == entries[k]
    ensures url in entries && Expired(entries[url], now, ttl) ==> r.entries == entries - {url}
    ensures !(url in entries && Expired(entries[url], now, ttl)) ==> r.entries == entries
  {
    if url !in entries then Lookup(None, entries)
    else if Expired(entries[url], now, ttl) then Lookup(None, entries - {url})
    else Lookup(Some(entries[url].data), entries)
  }

  /** A read never touches the entries of other URLs. */
  lemma ReadKeepsOthers(entries: map<string, Entry>, url: string, now: Time, ttl: int, other: string)
    requires other != url
    ensures other in Read(entries, url, now, ttl).entries <==> other in entries
  {
  }

  /** With a non-negative ttl, data stored at `now` is read back at the same instant. */
  lemma StoreThenRead(entries: map<string, Entry>, url: string, data: Payload, now: Time, ttl: int)
    requires ttl >= 0
    ensures Read(entries[url := Entry(now, data)], url, now, ttl) == Lookup(Some(data), entries[url := Entry(now, data)])
  {
  }

  /** With a negative ttl even a fresh entry is already expired. */
  lemma NegativeTtlNeverHits(entries: map<string, Entry>, url: string, data: Payload, now: Time, ttl: int)
    requires ttl < 0
    ensures Read(entries[url := Entry(now, data)], url, now, ttl).data == None
  {
  }

  /** Once a read found an entry expired, a later read finds nothing until it is stored again. */
  lemma ExpiredStaysGone(entries: map<string, Entry>, url: string, now: Time, later: Time, ttl: int)
    requires url in entries && Expired(entries[url], now, ttl)
    ensures Read(Read(entries, url, now, ttl).entries, url, later, ttl).data == None
  {
  }

  class ResultCache {
    const ttl: int
    var entries: map<string, Entry>

    constructor (ttl: int)
      ensures this.ttl == ttl && entries == map[]
    {
      this.ttl := ttl;
      entries := map[];
    }

    /** `get(url)`. */
    method Get(url: string, now: Time) returns (r: Option<Payload>)
      modifies this
      ensures r == Read(old(entries), url, now, ttl).data
      ensures entries == Read(old(entries), url, now, ttl).entries
    {
      if url !in entries {
        return None;
      }
      var entry := entries[url];
      if now - entry.stored > ttl as real {
        entries := entries - {url};
        return None;
      }
      r := Some(entry.data);
    }

    /** `set(url, data)`: replaces any earlier entry for the URL. */
    method Set(url: string, data: Payload, now: Time)
      modifies this
      ensures entries == old(entries)[url := Entry(now, data)]
    {
      entries := entries[url := Entry(now, data)];
    }
  }
}
