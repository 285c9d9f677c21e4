/**
 * The JSON documents the application reads through org.json's `JSONObject`: a document is a tree
 * of objects, arrays, numbers, strings, booleans and null. The text grammar itself is abstract.
 */
module JsonObjects {
  import opened Wrappers

  datatype Json =
    | Null
    | Bool(b: bool)
    | Number(n: real)
    | Str(s: string)
    | Array(items: seq<Json>)
    | Object(fields: map<string, Json>)

  /** The members of one JSON object. */
  type Fields = map<string, Json>

  /**
   * The JSON text grammar: the document a text denotes, or None when the text is not well-formed
   * JSON. Which texts are well-formed is left to this parameter.
   */
  type Grammar = string -> Option<Json>

  /**
   * The check `new JSONObject(String)` makes before anything else: after skipping the characters
   * from U+0001 to the space, the next character must be '{'.
   */
  predicate OpensObject(text: string)
  {
    |text| > 0 && (text[0] == '{' || (0 < text[0] as int <= 32 && OpensObject(text[1..])))
  }

  /** `new JSONObject(text)`: the object's members, or None where org.json throws JSONException. */
  function ParseObject(grammar: Grammar, text: string): (r: Option<Fields>)
    ensures text == "" ==> r.None?
    ensures r.Some? <==> OpensObject(text) && grammar(text).Some? && grammar(text).value.Object?
    ensures r.Some? ==> grammar(text) == Some(Object(r.value))
  {
    if !OpensObject(text) then None
    else match grammar(text)
      case Some(Object(fields)) => Some(fields)
      case _ => None
  }

  /** `getJSONObject(key)`: the member `key` when it is an object; None where org.json throws. */
  function GetObject(fields: Fields, key: string): (r: Option<Fields>)
    ensures r.Some? <==> key in fields && fields[key].Object?
    ensures r.Some? ==> fields[key] == Object(r.value)
  {
    if key in fields && fields[key].Object? then Some(fields[key].fields) else None
  }

  /** `getBigDecimal(key)`: the member `key` when it is a number; None where org.json throws. */
  function GetDecimal(fields: Fields, key: string): (r: Option<real>)
    ensures r.Some? <==> key in fields && fields[key].Number?
    ensures r.Some? ==> fields[key] == Number(r.value)
  {
    if key in fields && fields[key].Number? then Some(fields[key].n) else None
  }
}
