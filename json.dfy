/**
 * The JSON tree the extractor walks, with nanojson's total lookups: asking an
 * object for a key it lacks, or whose value has another type, yields the
 * empty object, the empty array or null, never an exception. An array index
 * past the end is treated the same way.
 */
module Json {
  import opened Wrappers

  datatype Json =
    | JObject(fields: map<string, Json>)
    | JArray(elements: seq<Json>)
    | JString(str: string)
    | JNumber(num: int)
    | JBool(flag: bool)
    | JNull

  /** nanojson's JsonObject and JsonArray. */
  type JsonObject = map<string, Json>
  type JsonArray = seq<Json>

  /** JsonObject.has: the key is present, whatever its value. */
  predicate Has(o: JsonObject, key: string)
  {
    key in o
  }

  /** JsonObject.getObject(key): the nested object, or a new empty one. */
  function GetObject(o: JsonObject, key: string): JsonObject
  {
    if key in o && o[key].JObject? then o[key].fields else map[]
  }

  /** JsonObject.getArray(key): the nested array, or a new empty one. */
  function GetArray(o: JsonObject, key: string): JsonArray
  {
    if key in o && o[key].JArray? then o[key].elements else []
  }

  /** JsonObject.getString(key): the string, or null. */
  function GetString(o: JsonObject, key: string): Option<string>
  {
    if key in o && o[key].JString? then Some(o[key].str) else None
  }

  /** JsonArray.getObject(index): the object at that index, or a new empty one. */
  function ObjectAt(a: JsonArray, index: nat): JsonObject
  {
    if index < |a| && a[index].JObject? then a[index].fields else map[]
  }
}
