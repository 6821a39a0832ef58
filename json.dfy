/**
 A decoded JSON value, as Python's `json` module hands it to the program
 (`None`, `bool`, numbers, `str`, `list`, `dict`), together with Python's
 notion of truthiness on such values.
 */
module Json {

  /** Numbers are decimals: `JNumber(m, e)` stands for m * 10^e, so 4000 is
      `JNumber(4000, 0)` and 0.7 is `JNumber(7, -1)`. Objects are dictionaries
      (a key decoded twice keeps its last value, so a map is the right view). */
  datatype Json =
    | JNull
    | JBool(b: bool)
    | JNumber(mantissa: int, exponent: int)
    | JString(s: string)
    | JArray(items: seq<Json>)
    | JObject(fields: map<string, Json>)

  /** Python's `bool(v)` on a decoded value: `None`, `False`, zero, the empty
      string, the empty list and the empty dict are false, everything else true. */
  predicate Truthy(j: Json) {
    match j
    case JNull => false
    case JBool(b) => b
    case JNumber(m, _) => m != 0
    case JString(s) => s != ""
    case JArray(items) => items != []
    case JObject(fields) => fields != map[]
  }

  /** `d.get(key, default)` on a dictionary. */
  function Get(fields: map<string, Json>, key: string, default: Json): (v: Json)
    ensures key in fields ==> v == fields[key]
    ensures key !in fields ==> v == default
  {
    if key in fields then fields[key] else default
  }
}
