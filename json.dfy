/** Untyped JSON values, as `json.loads` hands them to the plugin. */
module JsonValues {

  /** A decoded JSON document. Numbers are integers: the plugin only ever
      compares numbers for equality and sends the constant 1. */
  datatype Json =
    | JNull
    | JBool(b: bool)
    | JNum(n: int)
    | JStr(s: string)
    | JArr(items: seq<Json>)
    | JObj(fields: map<string, Json>)

  /** The key of the one-element `domains` list, in a request's
      `input_data` and in a reply's `answer` alike. */
  const DomainsKey := "domains"

  /** Python's `dict.get(key)`: the value under `key`, or `None` (here `JNull`)
      when the key is absent. A present JSON null also reads as `None`. */
  function Get(fields: map<string, Json>, key: string): Json
  {
    if key in fields then fields[key] else JNull
  }
}
