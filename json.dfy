/** An abstract JSON document. Serialised text is stood for by the tree it
    encodes; the textual syntax and the JSON library are not modelled. */
module Json {
  import opened Wrappers

  datatype Json =
    | JNull
    | JBool(b: bool)
    | JNumber(n: int)
    | JString(str: string)
    | JArray(items: seq<Json>)
    | JObject(members: map<string, Json>)

  /** A .NET `string` property: a reference that may be null (`None`). */
  type NullableString = Option<string>

  /** The JSON value a string property serialises to: null stays null. */
  function FromNullable(s: NullableString): (j: Json)
    ensures j.JNull? || j.JString?
    ensures ToNullable(j) == Some(s)
  {
    match s
    case None => JNull
    case Some(v) => JString(v)
  }

  /** Reads a JSON value into a string property; `None` when the value is
      neither a string nor null, so that the property cannot take it. */
  function ToNullable(j: Json): (r: Option<NullableString>)
    ensures r.Some? <==> j.JNull? || j.JString?
  {
    match j
    case JNull => Some(None)
    case JString(v) => Some(Some(v))
    case _ => None
  }

  /** Reads member `key` of an object into a string property whose value
      after construction is `default`: an absent member leaves it in place. */
  function ReadString(members: map<string, Json>, key: string, default: NullableString): (r: Option<NullableString>)
    ensures key !in members ==> r == Some(default)
    ensures key in members && r.Some? ==> FromNullable(r.value) == members[key]
    ensures key in members ==> (r.Some? <==> ToNullable(members[key]).Some?)
  {
    if key in members then ToNullable(members[key]) else Some(default)
  }
}
