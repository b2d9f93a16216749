/** Request bodies as the framework hands them to a handler (parsed JSON), and the few
    schema primitives the handlers' validators are built from. */
module Json {
  import opened Wrappers

  /** A JSON value. Numbers are kept exact (`real`); a request without a body is `JNull`,
      which every object schema refuses just as it refuses `undefined`. */
  datatype Json =
    | JNull
    | JBool(b: bool)
    | JNumber(n: real)
    | JString(s: string)
    | JArray(items: seq<Json>)
    | JObject(members: map<string, Json>)

  /** Member `key` of an object; `None` stands for JavaScript's `undefined`
      (the key is absent, or the body is not an object at all). */
  function Member(body: Json, key: string): (r: Option<Json>)
    ensures r.Some? <==> body.JObject? && key in body.members
    ensures r.Some? ==> r.value == body.members[key]
  {
    if body.JObject? && key in body.members then Some(body.members[key]) else None
  }

  /** `z.string()` on member `key`: its text when the member is present and a string. */
  function StringMember(body: Json, key: string): (r: Option<string>)
    ensures r.Some? <==> Member(body, key).Some? && Member(body, key).value.JString?
    ensures r.Some? ==> Member(body, key) == Some(JString(r.value))
  {
    match Member(body, key)
    case Some(JString(s)) => Some(s)
    case _ => None
  }

  /** `.optional()` around a rule: None when the member is present and breaks the rule,
      Some(None) when it is absent, Some(Some(v)) when it is present and passes. */
  function Optional<T>(v: Option<Json>, rule: Json -> Option<T>): (r: Option<Option<T>>)
    ensures v.None? ==> r == Some(None)
    ensures v.Some? ==> (r.None? <==> rule(v.value).None?)
    ensures v.Some? && rule(v.value).Some? ==> r == Some(rule(v.value))
  {
    match v
    case None => Some(None)
    case Some(j) =>
      match rule(j)
      case None => None
      case Some(x) => Some(Some(x))
  }

  /** `z.array(z.string())` on the items of an array: every item must be a string. */
  function StringItems(items: seq<Json>): (r: Option<seq<string>>)
    ensures r.Some? <==> forall i :: 0 <= i < |items| ==> items[i].JString?
    ensures r.Some? ==> |r.value| == |items| && forall i :: 0 <= i < |items| ==> r.value[i] == items[i].s
  {
    if items == [] then Some([])
    else if !items[0].JString? then None
    else
      match StringItems(items[1..])
      case None => None
      case Some(rest) => Some([items[0].s] + rest)
  }

  /** The JSON array of the given strings. */
  function StringArray(ss: seq<string>): (r: Json)
    ensures r.JArray? && |r.items| == |ss|
    ensures forall i :: 0 <= i < |ss| ==> r.items[i] == JString(ss[i])
  {
    JArray(seq(|ss|, i requires 0 <= i < |ss| => JString(ss[i])))
  }

  /** Decoding an encoded array of strings gives the strings back. */
  lemma StringArrayRoundTrip(ss: seq<string>)
    ensures StringItems(StringArray(ss).items) == Some(ss)
  {
    var r := StringItems(StringArray(ss).items);
    assert r.Some?;
    assert r.value == ss;
  }
}
