/** Go's `map[string][]string`, the representation shared by `url.Values`
    (a query) and `http.Header` (request headers): each key holds the list of
    values added under it, in the order they were added. */
module Multimap {

  type Entries = map<string, seq<string>>

  /** The values stored under `key`; a missing key has none. */
  function ValuesOf(m: Entries, key: string): seq<string> {
    if key in m then m[key] else []
  }

  /** `Add`: `value` is appended to the values of `key`; every other key keeps its values. */
  function Appended(m: Entries, key: string, value: string): (r: Entries)
    ensures r.Keys == m.Keys + {key}
    ensures ValuesOf(r, key) == ValuesOf(m, key) + [value]
    ensures forall k :: k != key ==> ValuesOf(r, k) == ValuesOf(m, k)
  {
    m[key := ValuesOf(m, key) + [value]]
  }

  /** `Del`: `key` and all its values are gone; every other key keeps its values. */
  function Removed(m: Entries, key: string): (r: Entries)
    ensures r.Keys == m.Keys - {key}
    ensures ValuesOf(r, key) == []
    ensures forall k :: k != key ==> ValuesOf(r, k) == ValuesOf(m, k)
  {
    m - {key}
  }

  /** A multi-valued map that is changed in place, as `url.Values` and `http.Header` are. */
  class MultiMap {
    var entries: Entries

    /** An empty map, as `url.Values{}`. */
    constructor Empty()
      ensures entries == map[]
    {
      entries := map[];
    }

    /** A map that starts out holding `m`. */
    constructor Of(m: Entries)
      ensures entries == m
    {
      entries := m;
    }

    method Add(key: string, value: string)
      modifies this
      ensures entries == Appended(old(entries), key, value)
    {
      entries := entries[key := ValuesOf(entries, key) + [value]];
    }

    method Del(key: string)
      modifies this
      ensures entries == Removed(old(entries), key)
    {
      entries := entries - {key};
    }
  }
}
