/** Dynamically typed field values, as Firestore documents and Firebase custom claims hold them. */
module Values {

  datatype Value =
    | Str(s: string)
    | Num(n: int)                 // an integer or an integral double
    | StrArray(items: seq<string>)
    | Object(fields: map<string, Value>)
    | Time                        // a timestamp; the instant itself is not modelled
    | Null

  type Fields = map<string, Value>

  /** `data[name].(string)` in its comma-ok form: the string, or "" when absent or not a string. */
  function StringField(data: Fields, name: string): (r: string)
    ensures r != "" ==> name in data && data[name] == Str(r)
    ensures name in data && data[name].Str? ==> r == data[name].s
  {
    if name in data && data[name].Str? then data[name].s else ""
  }

  /** `data[name].([]interface{})` in its comma-ok form: the elements, or none. */
  function ArrayField(data: Fields, name: string): (r: seq<string>)
    ensures r != [] ==> name in data && data[name] == StrArray(r)
    ensures name in data && data[name].StrArray? ==> r == data[name].items
  {
    if name in data && data[name].StrArray? then data[name].items else []
  }

  /** `data[name] == v` on an interface value: false when the field is absent. */
  predicate FieldIs(data: Fields, name: string, v: Value) {
    name in data && data[name] == v
  }
}
