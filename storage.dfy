/**
 * The app's persistent key-value store and the three helpers every screen
 * goes through. Storage errors are caught and dropped by the helpers, so a
 * failed call looks to its caller like one that did nothing; this store
 * always succeeds.
 */
module Storage {
  import opened Wrappers

  /** What `getData(key)` yields for a store holding `entries`: `null` for a missing key. */
  function Get(entries: map<string, string>, key: string): (r: Option<string>)
    ensures r.Some? <==> key in entries
    ensures r.Some? ==> r.value == entries[key]
  {
    if key in entries then Some(entries[key]) else None
  }

  class Store {
    var entries: map<string, string>

    /** A store holding `entries`. */
    constructor (entries: map<string, string>)
      ensures this.entries == entries
    {
      this.entries := entries;
    }

    /** `storeData(key, value)`: sets one key and leaves every other key as it was. */
    method StoreData(key: string, value: string)
      modifies this`entries
      ensures entries == old(entries)[key := value]
    {
      entries := entries[key := value];
    }

    /** `getData(key)`: the stored value, or nothing for a missing key; the store does not change. */
    method GetData(key: string) returns (value: Option<string>)
      ensures value == Get(entries, key)
    {
      if key in entries {
        value := Some(entries[key]);
      } else {
        value := None;
      }
    }

    /** `removeData(key)`: drops one key, if present, and keeps every other key. */
    method RemoveData(key: string)
      modifies this`entries
      ensures entries == old(entries) - {key}
    {
      entries := entries - {key};
    }
  }
}
