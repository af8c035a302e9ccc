/** JSON values as `JSON.parse` and `resp.json()` return them, and the two
    JavaScript rules the client applies to them: truthiness and reading the
    `message` field of an error body. */
module Json {
  import opened Wrappers

  datatype Json =
    | JNull
    | JBool(b: bool)
    | JNumber(n: real)
    | JString(s: string)
    | JArray(items: seq<Json>)
    | JObject(fields: map<string, Json>)

  /** JavaScript truthiness of a value that may be `undefined` (None). */
  predicate Truthy(v: Option<Json>) {
    match v
    case None => false
    case Some(JNull) => false
    case Some(JBool(b)) => b
    case Some(JNumber(n)) => n != 0.0
    case Some(JString(s)) => s != ""
    case Some(_) => true
  }

  /** `x?.message` used as the left operand of `||`: the message text when the
      value is an object whose `message` field is a non-empty string. */
  function MessageField(v: Option<Json>): (m: Option<string>)
    ensures m.Some? <==> v.Some? && v.value.JObject? && "message" in v.value.fields
                         && v.value.fields["message"].JString? && v.value.fields["message"].s != ""
    ensures m.Some? ==> m.value != "" && m.value == v.value.fields["message"].s
  {
    match v
    case Some(JObject(fields)) =>
      if "message" in fields && fields["message"].JString? && fields["message"].s != ""
      then Some(fields["message"].s)
      else None
    case _ => None
  }
}
