/** JSON values, and the names that they get as keys of a JSON object. */
module Json {
  import opened Wrappers

  // A number is known by its text.
  datatype Json =
    | JNull
    | JBool(value: bool)
    | JNumber(text: string)
    | JString(text: string)
    | JArray(items: seq<Json>)
    | JObject(members: map<string, Json>)

  // Member names are strings: numbers and booleans are written as their text, nothing else can be one.
  function MemberName(v: Json): Option<string> {
    match v
    case JString(text) => Some(text)
    case JNumber(text) => Some(text)
    case JBool(b) => Some(if b then "true" else "false")
    case _ => None
  }
}
