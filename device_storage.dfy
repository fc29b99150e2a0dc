/**
 * The device's AsyncStorage as seen by the client helpers. Plain strings and
 * the JSON-encoded done-task maps are kept apart: `texts` holds the former,
 * `records` the latter already decoded, so `JSON.stringify` followed by
 * `JSON.parse` is the identity on the values stored.
 */
module DeviceStorage {
  import opened Results

  /** Date string ("YYYY-MM-DD") to the tasks done on that date. */
  type DoneMap = map<string, seq<string>>

  class AsyncStorage {
    var texts: map<string, string>
    var records: map<string, DoneMap>

    constructor ()
      ensures texts == map[] && records == map[]
    {
      texts, records := map[], map[];
    }

    /** `AsyncStorage.getItem(key)` of a plain string: `null` when the key is missing. */
    method GetItem(key: string) returns (v: Option<string>)
      ensures v == if key in texts then Some(texts[key]) else None
    {
      v := if key in texts then Some(texts[key]) else None;
    }

    /** `AsyncStorage.setItem(key, value)` of a plain string. */
    method SetItem(key: string, value: string)
      modifies this
      ensures texts == old(texts)[key := value] && records == old(records)
    {
      texts := texts[key := value];
    }

    /** `AsyncStorage.getItem(key)` of a JSON-encoded map. */
    method GetRecord(key: string) returns (v: Option<DoneMap>)
      ensures v == if key in records then Some(records[key]) else None
    {
      v := if key in records then Some(records[key]) else None;
    }

    /** `AsyncStorage.setItem(key, JSON.stringify(value))`. */
    method SetRecord(key: string, value: DoneMap)
      modifies this
      ensures records == old(records)[key := value] && texts == old(texts)
    {
      records := records[key := value];
    }
  }
}
