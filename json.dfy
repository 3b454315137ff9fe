/** A decoded JSON document as Python holds it after `json.loads`. */
module JsonData {
  import Dicts

  /** Numbers are integers: the modelled code never uses a fractional value. */
  datatype Json =
    | JNull
    | JBool(b: bool)
    | JNum(n: int)
    | JStr(s: string)
    | JArr(items: seq<Json>)
    | JObj(fields: Dicts.Dict<string, Json>)
}
