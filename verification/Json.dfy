/** A JSON document as the tree `json.dump` writes and `json.load` reads
    back; the text form and its indentation are not part of the model. */
module Json {

  datatype Json =
    | JNull
    | JBool(b: bool)
    | JInt(i: int)
    | JString(str: string)
    | JArray(items: seq<Json>)
    | JObject(members: map<string, Json>)

  /** Python truthiness of the loaded value: `None`, `False`, `0`, `''`,
      `[]` and `{}` are false, everything else is true. */
  predicate Truthy(j: Json) {
    match j
    case JNull => false
    case JBool(b) => b
    case JInt(i) => i != 0
    case JString(s) => s != []
    case JArray(a) => a != []
    case JObject(m) => m != map[]
  }
}
