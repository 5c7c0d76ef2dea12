/**
 * The part of Jackson's JsonNode tree the core reads and writes: text
 * values, objects keyed by field name, arrays, the explicit null node and
 * the "missing" node that path() returns for an absent field.
 */
module Json {
  import opened Wrappers

  datatype Json =
    | Text(text: string)
    | Object(fields: map<string, Json>)
    | Array(items: seq<Json>)
    | Null
    | Missing

  /** JsonNode.path(key): the field's value, or the missing node when there is none. */
  function Path(j: Json, key: string): (r: Json)
    ensures r != Missing ==> j.Object? && key in j.fields && r == j.fields[key]
    ensures j.Object? && key in j.fields ==> r == j.fields[key]
  {
    if j.Object? && key in j.fields then j.fields[key] else Missing
  }

  /** JsonNode.textValue(): the string of a text node, null (None) for every other node. */
  function TextValue(j: Json): (r: Option<string>)
    ensures r.Some? <==> j.Text?
    ensures j.Text? ==> r == Some(j.text)
  {
    if j.Text? then Some(j.text) else None
  }

  /** ObjectNode.put(key, String): a null string is stored as the null node. */
  function TextOrNull(s: Option<string>): (r: Json)
    ensures TextValue(r) == s
  {
    match s
    case Some(t) => Text(t)
    case None => Null
  }
}
