/**
 * The generic, schema-free view of a Kubernetes resource: the tree of values
 * that the unstructured converter produces from the admitted object. JSON
 * objects become maps from keys to values, arrays become sequences, and a
 * JSON `null` is the nil interface value.
 */
module JsonValues {

  datatype Json =
    | JNull
    | JBool(b: bool)
    | JNumber(n: int)
    | JString(s: string)
    | JArray(items: seq<Json>)
    | JObject(fields: map<string, Json>)
}
