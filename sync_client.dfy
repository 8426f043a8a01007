/**
 * `SyncClient`: builds RestSharp requests, hands them to the transport and
 * classifies the transport's reply. The transport itself (`IRestClient`) is
 * abstract: it records what it was sent and returns the reply it is given.
 */
module Client {
  import opened Wrappers
  import opened Wire
  import opened Exceptions
  import opened Responses

  // ---------------------------------------------------------------------------
  // string.Format over composite format strings, pre-parsed into pieces

  datatype Piece = Lit(text: string) | Arg(index: nat)

  /** A composite format string such as "auth/user/{0}/". */
  type Template = seq<Piece>

  predicate FitsArgs(t: Template, n: nat) {
    forall i :: 0 <= i < |t| && t[i].Arg? ==> t[i].index < n
  }

  /** `string.Format(template, args)` */
  function Format(t: Template, args: seq<string>): string
    requires FitsArgs(t, |args|)
  {
    if t == [] then ""
    else (match t[0] case Lit(s) => s case Arg(i) => args[i]) + Format(t[1..], args)
  }

  const AuthTemplate: Template := [Lit("auth/")]
  const DefaultEnvironmentTemplate: Template := [Lit("auth/user/"), Arg(0), Lit("/default/")]
  const EnvironmentTemplate: Template := [Lit("auth/env/"), Arg(0), Lit("/")]
  const UserInfoTemplate: Template := [Lit("auth/user/"), Arg(0)]
  const UserTemplate: Template := [Lit("auth/user/"), Arg(0), Lit("/")]
  const GrantTemplate: Template := [Lit("auth/grant/")]
  const ValueTemplate: Template := [Lit("env/"), Arg(0), Arg(1)]

  /** Every template has as many arguments as its callers pass. */
  lemma TemplatesFit()
    ensures FitsArgs(AuthTemplate, 0) && FitsArgs(GrantTemplate, 0)
    ensures FitsArgs(DefaultEnvironmentTemplate, 1) && FitsArgs(EnvironmentTemplate, 1)
    ensures FitsArgs(UserInfoTemplate, 1) && FitsArgs(UserTemplate, 1)
    ensures FitsArgs(ValueTemplate, 2)
  {
  }

  /** The resources the client addresses, with their arguments substituted. */
  lemma {:induction false} TemplateResources(name: string, env: string, path: string)
    ensures FitsArgs(AuthTemplate, 0) && Format(AuthTemplate, []) == "auth/"
    ensures FitsArgs(GrantTemplate, 0) && Format(GrantTemplate, []) == "auth/grant/"
    ensures FitsArgs(DefaultEnvironmentTemplate, 1) && Format(DefaultEnvironmentTemplate, [name]) == "auth/user/" + name + "/default/"
    ensures FitsArgs(EnvironmentTemplate, 1) && Format(EnvironmentTemplate, [name]) == "auth/env/" + name + "/"
    ensures FitsArgs(UserInfoTemplate, 1) && Format(UserInfoTemplate, [name]) == "auth/user/" + name
    ensures FitsArgs(UserTemplate, 1) && Format(UserTemplate, [name]) == "auth/user/" + name + "/"
    ensures FitsArgs(ValueTemplate, 2) && Format(ValueTemplate, [env, path]) == "env/" + env + path
  {
    FormatThree(DefaultEnvironmentTemplate, [name]);
    FormatThree(EnvironmentTemplate, [name]);
    FormatThree(UserTemplate, [name]);
    FormatThree(ValueTemplate, [env, path]);
    var u := UserInfoTemplate;
    assert Format(u, [name]) == "auth/user/" + Format(u[1..], [name]);
    assert Format(u[1..], [name]) == name + Format(u[2..], [name]);
    var a := AuthTemplate;
    assert Format(a, []) == "auth/" + Format(a[1..], []);
    var g := GrantTemplate;
    assert Format(g, []) == "auth/grant/" + Format(g[1..], []);
  }

  function PieceText(p: Piece, args: seq<string>): string
    requires p.Arg? ==> p.index < |args|
  {
    match p case Lit(s) => s case Arg(i) => args[i]
  }

  lemma FormatThree(t: Template, args: seq<string>)
    requires |t| == 3 && FitsArgs(t, |args|)
    ensures Format(t, args) == PieceText(t[0], args) + PieceText(t[1], args) + PieceText(t[2], args)
  {
    assert Format(t, args) == PieceText(t[0], args) + Format(t[1..], args);
    assert Format(t[1..], args) == PieceText(t[1], args) + Format(t[2..], args);
    assert Format(t[2..], args) == PieceText(t[2], args) + Format(t[3..], args);
  }

  // ---------------------------------------------------------------------------
  // RestSharp requests

  /** `ParameterType.QueryString`, or RestSharp's default `GetOrPost`. */
  datatype ParameterType = QueryString | GetOrPost

  datatype Parameter = Parameter(name: string, value: string, kind: ParameterType)

  /** The parameters of one type, by name; a later parameter wins over an earlier one. */
  function Collect(ps: seq<Parameter>, kind: ParameterType): map<string, string> {
    if ps == [] then map[]
    else
      var rest := Collect(ps[..|ps| - 1], kind);
      var p := ps[|ps| - 1];
      if p.kind == kind then rest[p.name := p.value] else rest
  }

  function ParameterNames(ps: seq<Parameter>): set<string> {
    if ps == [] then {} else ParameterNames(ps[..|ps| - 1]) + {ps[|ps| - 1].name}
  }

  lemma {:induction false} ParameterNameHolds(ps: seq<Parameter>, i: int)
    requires 0 <= i < |ps|
    ensures ps[i].name in ParameterNames(ps)
  {
    if i < |ps| - 1 {
      ParameterNameHolds(ps[..|ps| - 1], i);
    }
  }

  lemma {:induction false} ParameterNameWitness(ps: seq<Parameter>, x: string)
    requires x in ParameterNames(ps)
    ensures exists i :: 0 <= i < |ps| && ps[i].name == x
  {
    if ps[|ps| - 1].name != x {
      ParameterNameWitness(ps[..|ps| - 1], x);
      var i :| 0 <= i < |ps| - 1 && ps[..|ps| - 1][i].name == x;
      assert ps[i].name == x;
    }
  }

  /** `ps` adds every entry of `args` exactly once, with its key and value, as `kind`. */
  ghost predicate ListsArgs(ps: seq<Parameter>, args: map<string, string>, kind: ParameterType) {
    && (forall i :: 0 <= i < |ps| ==> ps[i].kind == kind && ps[i].name in args && args[ps[i].name] == ps[i].value)
    && (forall i, j :: 0 <= i < j < |ps| ==> ps[i].name != ps[j].name)
    && ParameterNames(ps) == args.Keys
  }

  /** A list that adds exactly the entries of `args` as `kind` sends `args`, and nothing of the other type. */
  lemma {:induction false} CollectListedArgs(ps: seq<Parameter>, args: map<string, string>, kind: ParameterType, other: ParameterType)
    requires ListsArgs(ps, args, kind)
    requires other != kind
    ensures Collect(ps, kind) == args
    ensures Collect(ps, other) == map[]
  {
    if ps != [] {
      var init, p := ps[..|ps| - 1], ps[|ps| - 1];
      var rest := args - {p.name};
      forall i | 0 <= i < |init|
        ensures init[i].name != p.name
      {
        assert ps[i].name != ps[|ps| - 1].name;
      }
      if p.name in ParameterNames(init) {
        ParameterNameWitness(init, p.name);
      }
      assert ListsArgs(init, rest, kind);
      CollectListedArgs(init, rest, kind, other);
      assert Collect(ps, kind) == rest[p.name := p.value];
    }
  }

  function ArgsOrEmpty(args: Option<map<string, string>>): map<string, string> {
    args.GetOr(map[])
  }

  /** `RestRequest`: a resource, a verb, an optional JSON body and a list of parameters. */
  class RestRequest {
    const verb: Method
    const resource: string
    var body: Option<JsonObject>
    var parameters: seq<Parameter>

    constructor(resource: string, verb: Method)
      ensures this.resource == resource && this.verb == verb
      ensures body == None && parameters == []
    {
      this.resource := resource;
      this.verb := verb;
      body := None;
      parameters := [];
    }

    /** `AddBody`: serialises `data` as the JSON body. */
    method AddBody(data: JsonObject)
      modifies this`body
      ensures body == Some(data)
    {
      body := Some(data);
    }

    /** `AddParameter`: appends one parameter to the list. */
    method AddParameter(name: string, value: string, kind: ParameterType)
      modifies this`parameters
      ensures parameters == old(parameters) + [Parameter(name, value, kind)]
    {
      parameters := parameters + [Parameter(name, value, kind)];
    }

    /** What the transport is handed for this request. */
    function Snapshot(): Request
      reads this
    {
      Request(verb, resource, body, Collect(parameters, QueryString), Collect(parameters, GetOrPost))
    }
  }

  /**
   * `IRestRequestExt.AddParameters`: one parameter per dictionary entry; a
   * null dictionary adds nothing. The newer client adds query-string
   * parameters, the legacy one parameters of the default type.
   */
  method AddParameters(request: RestRequest, args: Option<map<string, string>>, kind: ParameterType)
    modifies request`parameters
    ensures |old(request.parameters)| <= |request.parameters|
    ensures request.parameters[..|old(request.parameters)|] == old(request.parameters)
    ensures ListsArgs(request.parameters[|old(request.parameters)|..], ArgsOrEmpty(args), kind)
  {
    var dict := ArgsOrEmpty(args);
    var remaining := dict.Keys;
    ghost var start := |request.parameters|;
    while remaining != {}
      invariant remaining <= dict.Keys
      invariant start <= |request.parameters|
      invariant request.parameters[..start] == old(request.parameters)
      invariant var added := request.parameters[start..];
        && (forall i :: 0 <= i < |added| ==> added[i].kind == kind && added[i].name in dict && dict[added[i].name] == added[i].value)
        && (forall i, j :: 0 <= i < j < |added| ==> added[i].name != added[j].name)
        && ParameterNames(added) == dict.Keys - remaining
      decreases remaining
    {
      var key :| key in remaining;
      ghost var before := request.parameters[start..];
      forall i | 0 <= i < |before|
        ensures before[i].name != key
      {
        ParameterNameHolds(before, i);
      }
      request.AddParameter(key, dict[key], kind);
      assert request.parameters[start..] == before + [Parameter(key, dict[key], kind)];
      assert (before + [Parameter(key, dict[key], kind)])[..|before|] == before;
      remaining := remaining - {key};
    }
  }

  // ---------------------------------------------------------------------------
  // The transport and the request executor

  /** What the transport returns: nothing, or a status code and a deserialised body that may be null. */
  datatype Reply<P> = NoReply | Replied(statusCode: int, data: Option<Envelope<P>>)

  /** The transport (`IRestClient`); `sent` records every request handed to it. */
  class RestClient {
    ghost var sent: seq<Request>

    constructor()
      ensures sent == []
    {
      sent := [];
    }

    method Execute<P>(request: RestRequest, reply: Reply<P>) returns (response: Reply<P>)
      modifies this
      ensures sent == old(sent) + [request.Snapshot()]
      ensures response == reply
    {
      sent := sent + [request.Snapshot()];
      response := reply;
    }
  }

  /**
   * `SyncClient.Execute`: no reply, a reply without a body, and an envelope
   * that is not "Ok" each raise `ErrorFromCityHallException`; otherwise the
   * body is returned as it came.
   */
  function Classify<P>(request: Request, reply: Reply<P>): (r: Outcome<Envelope<P>>)
    ensures r.Success? <==> reply.Replied? && reply.data.Some? && reply.data.value.IsValid()
    ensures r.Success? ==> r.value == reply.data.value
    ensures reply.NoReply? ==> r == Failure(ErrorFromCityHall(NoResponse(request.verb, request.resource)))
    ensures reply.Replied? && reply.data.None? ==> r == Failure(ErrorFromCityHall(NoData(reply.statusCode)))
    ensures reply.Replied? && reply.data.Some? && !reply.data.value.IsValid() ==>
      r == Failure(ErrorFromCityHall(Rejected(reply.data.value.message)))
  {
    match reply
    case NoReply => Failure(ErrorFromCityHall(NoResponse(request.verb, request.resource)))
    case Replied(status, data) =>
      if data.None? then Failure(ErrorFromCityHall(NoData(status)))
      else if !data.value.IsValid() then Failure(ErrorFromCityHall(Rejected(data.value.message)))
      else Success(data.value)
  }

  /** The executor depends on the envelope alone: a failure status raises with the server's message, whatever the body. */
  lemma ClassifyIgnoresPayload<P, Q>(request: Request, status: int, e: Envelope<P>, payload: Q)
    ensures var other := Replied(status, Some(Envelope(e.response, e.message, payload)));
      Classify(request, Replied(status, Some(e))).Success? == Classify(request, other).Success?
    ensures !e.IsValid() ==>
      Classify(request, Replied(status, Some(e))) == Failure(ErrorFromCityHall(Rejected(e.message)))
  {
  }

  /** `after` is `before` plus the request `q`, and `r` is the executor's verdict on `reply`. */
  ghost predicate Dispatched<P>(before: seq<Request>, after: seq<Request>, q: Request, reply: Reply<P>, r: Outcome<Envelope<P>>) {
    after == before + [q] && r == Classify(q, reply)
  }

  lemma OnlyQueryArgs(ps: seq<Parameter>, args: map<string, string>)
    requires ListsArgs(ps, args, QueryString)
    ensures Collect(ps, QueryString) == args && Collect(ps, GetOrPost) == map[]
  {
    CollectListedArgs(ps, args, QueryString, GetOrPost);
  }

  /** The request-building half of `SyncClient`; the newer session class extends it. */
  class SyncClient {
    const client: RestClient

    constructor(client: RestClient)
      ensures this.client == client
    {
      this.client := client;
    }

    method Execute<P>(request: RestRequest, reply: Reply<P>) returns (r: Outcome<Envelope<P>>)
      modifies client
      ensures Dispatched(old(client.sent), client.sent, request.Snapshot(), reply, r)
    {
      var response := client.Execute(request, reply);
      r := Classify(request.Snapshot(), response);
    }

    /** `PostWithParameters`: a POST with a JSON body and query-string parameters. */
    method PostWithParameters<P>(data: JsonObject, location: string, args: Option<map<string, string>>, reply: Reply<P>)
      returns (r: Outcome<Envelope<P>>)
      modifies client
      ensures Dispatched(old(client.sent), client.sent, Request(POST, location, Some(data), ArgsOrEmpty(args), map[]), reply, r)
    {
      var request := new RestRequest(location, POST);
      request.AddBody(data);
      AddParameters(request, args, QueryString);
      OnlyQueryArgs(request.parameters, ArgsOrEmpty(args));
      r := Execute(request, reply);
    }

    /** `Post`: the location template filled with `args`, no parameters. */
    method Post<P>(data: JsonObject, location: Template, args: seq<string>, reply: Reply<P>)
      returns (r: Outcome<Envelope<P>>)
      requires FitsArgs(location, |args|)
      modifies client
      ensures Dispatched(old(client.sent), client.sent, Request(POST, Format(location, args), Some(data), map[], map[]), reply, r)
    {
      r := PostWithParameters(data, Format(location, args), None, reply);
    }

    /** `GetWithParameters`: a GET with query-string parameters and no body. */
    method GetWithParameters<P>(location: string, args: Option<map<string, string>>, reply: Reply<P>)
      returns (r: Outcome<Envelope<P>>)
      modifies client
      ensures Dispatched(old(client.sent), client.sent, Request(GET, location, None, ArgsOrEmpty(args), map[]), reply, r)
    {
      var request := new RestRequest(location, GET);
      AddParameters(request, args, QueryString);
      OnlyQueryArgs(request.parameters, ArgsOrEmpty(args));
      r := Execute(request, reply);
    }

    /** `Get`: the location template filled with `args`, no parameters. */
    method Get<P>(location: Template, args: seq<string>, reply: Reply<P>)
      returns (r: Outcome<Envelope<P>>)
      requires FitsArgs(location, |args|)
      modifies client
      ensures Dispatched(old(client.sent), client.sent, Request(GET, Format(location, args), None, map[], map[]), reply, r)
    {
      r := GetWithParameters(Format(location, args), None, reply);
    }

    /** `DeleteWithParameters`: a DELETE with query-string parameters and no body. */
    method DeleteWithParameters(location: string, args: Option<map<string, string>>, reply: Reply<()>)
      returns (r: Outcome<BaseResponse>)
      modifies client
      ensures Dispatched(old(client.sent), client.sent, Request(DELETE, location, None, ArgsOrEmpty(args), map[]), reply, r)
    {
      var request := new RestRequest(location, DELETE);
      AddParameters(request, args, QueryString);
      OnlyQueryArgs(request.parameters, ArgsOrEmpty(args));
      r := Execute(request, reply);
    }

    /** `DeleteFormat`: the location template filled with `args`, no parameters. */
    method DeleteFormat(location: Template, args: seq<string>, reply: Reply<()>)
      returns (r: Outcome<BaseResponse>)
      requires FitsArgs(location, |args|)
      modifies client
      ensures Dispatched(old(client.sent), client.sent, Request(DELETE, Format(location, args), None, map[], map[]), reply, r)
    {
      r := DeleteWithParameters(Format(location, args), None, reply);
    }

    /** `Put`: a PUT with a JSON body and no parameters. */
    method Put(data: JsonObject, format: Template, args: seq<string>, reply: Reply<()>)
      returns (r: Outcome<BaseResponse>)
      requires FitsArgs(format, |args|)
      modifies client
      ensures Dispatched(old(client.sent), client.sent, Request(PUT, Format(format, args), Some(data), map[], map[]), reply, r)
    {
      var request := new RestRequest(Format(format, args), PUT);
      request.AddBody(data);
      r := Execute(request, reply);
    }
  }
}
