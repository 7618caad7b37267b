/** Decoded JSON values, as PHP's json_decode hands them to the application.
    Floating-point numbers are not represented. */
module Json {

  datatype Option<+T> = None | Some(value: T)

  datatype Json =
    | JNull
    | JBool(b: bool)
    | JInt(i: int)
    | JStr(s: string)
    | JArr(items: seq<Json>)
    | JObj(fields: map<string, Json>)

  /** `$object->key`: the member when the value is an object that has it. */
  function Member(j: Json, key: string): (r: Option<Json>)
    ensures r.Some? <==> j.JObj? && key in j.fields
    ensures r.Some? ==> r.value == j.fields[key]
  {
    if j.JObj? && key in j.fields then Some(j.fields[key]) else None
  }

  /** A member that must hold a string (a `string` constructor parameter). */
  function StringMember(j: Json, key: string): (r: Option<string>)
    ensures r.Some? <==> Member(j, key).Some? && Member(j, key).value.JStr?
    ensures r.Some? ==> j.fields[key] == JStr(r.value)
  {
    match Member(j, key)
    case Some(JStr(s)) => Some(s)
    case _ => None
  }
}
