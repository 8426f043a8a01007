/**
 * What goes over the wire: HTTP verbs, the JSON bodies the client sends, and
 * the recorded shape of one outgoing request.
 */
module Wire {
  import opened Wrappers

  /** RestSharp `Method`, restricted to the verbs the client uses. */
  datatype Method = GET | POST | PUT | DELETE

  /** A JSON scalar as produced by serialising an anonymous C# object. */
  datatype Json = JNull | JString(s: string) | JBool(b: bool) | JInt(i: int)

  /** One property of a serialised anonymous object, in declaration order. */
  datatype Member = Member(key: string, value: Json)

  type JsonObject = seq<Member>

  /** A nullable C# string property: null serialises as JSON null. */
  function Text(s: Option<string>): (j: Json)
    ensures j.JNull? <==> s.None?
    ensures s.Some? ==> j == JString(s.value)
  {
    match s
    case None => JNull
    case Some(v) => JString(v)
  }

  /** The property names of an object, in order. */
  function Keys(obj: JsonObject): (ks: seq<string>)
    ensures |ks| == |obj|
    ensures forall i :: 0 <= i < |obj| ==> ks[i] == obj[i].key
  {
    if obj == [] then [] else [obj[0].key] + Keys(obj[1..])
  }

  /** The value of the first property called `key`, if any. */
  function Lookup(obj: JsonObject, key: string): (r: Option<Json>)
    ensures r.None? <==> key !in Keys(obj)
  {
    if obj == [] then None
    else if obj[0].key == key then Some(obj[0].value)
    else Lookup(obj[1..], key)
  }

  /**
   * One request handed to the transport. `query` holds the parameters added as
   * query-string parameters; `getOrPost` those added with RestSharp's default
   * parameter type, which the transport places itself.
   */
  datatype Request = Request(
    verb: Method,
    resource: string,
    body: Option<JsonObject>,
    query: map<string, string>,
    getOrPost: map<string, string>)
}
