/** The browser's key-value store. Each entry is kept as the JSON value whose
    text the store holds, so that what one service writes and another reads
    back can be compared structurally. */
module Storage {
  import opened Wrappers

  /** A JSON value. `JDate(ms)` is the ISO-8601 string a `Date` with time
      value `ms` serialises to. */
  datatype Json =
    | JNull
    | JBool(b: bool)
    | JNum(n: real)
    | JStr(s: string)
    | JDate(ms: int)
    | JArr(items: seq<Json>)
    | JObj(fields: map<string, Json>)

  /** `localStorage`: string keys to stored values, shared by every service. */
  class KeyValueStore {
    var entries: map<string, Json>

    constructor (initial: map<string, Json>)
      ensures entries == initial
    {
      entries := initial;
    }

    /** `getItem(key)`: the stored value, or nothing. */
    method GetItem(key: string) returns (v: Option<Json>)
      ensures key in entries ==> v == Some(entries[key])
      ensures key !in entries ==> v == None
    {
      v := if key in entries then Some(entries[key]) else None;
    }

    /** `setItem(key, value)`: overwrites one key. */
    method SetItem(key: string, value: Json)
      modifies this
      ensures entries == old(entries)[key := value]
    {
      entries := entries[key := value];
    }

    /** `removeItem(key)`: drops one key, if present. */
    method RemoveItem(key: string)
      modifies this
      ensures entries == old(entries) - {key}
    {
      entries := entries - {key};
    }
  }
}
