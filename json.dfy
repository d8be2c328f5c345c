/** The JSON-shaped values the adapters return: what `json.loads` yields and
    the dicts the adapters build around it. Object members keep their order. */
module Json {

  datatype Json =
    | JNull
    | JBool(b: bool)
    | JNumber(x: real)
    | JString(s: string)
    | JArray(items: seq<Json>)
    | JObject(members: seq<(string, Json)>)

  /** `{key: value}` */
  function Single(key: string, value: string): Json {
    JObject([(key, JString(value))])
  }
}
