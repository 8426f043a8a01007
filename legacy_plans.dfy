/**
 * What the operations of the first session generation, `SyncSettings`, send.
 * They differ from the newer ones in the details this module makes explicit:
 * parameters of the default RestSharp type, an override of "" that is
 * dropped, a login that never sends the password, a password update by POST,
 * upper-case hex hashes, and an executor that dereferences a missing body.
 */
module LegacyPlans {
  import opened Wrappers
  import opened Wire
  import opened Exceptions
  import opened Responses
  import opened Data
  import opened Client
  import Password
  import Resolution
  import Plans

  // ---------------------------------------------------------------------------
  // The executor and the pure helpers

  /**
   * `SyncSettings.Execute`: no reply raises as in the newer executor, but a
   * reply whose body is null is dereferenced before anything is checked.
   */
  function LegacyClassify<P>(request: Request, reply: Reply<P>): (r: Outcome<Envelope<P>>)
    ensures r.Success? <==> reply.Replied? && reply.data.Some? && reply.data.value.IsValid()
    ensures r.Success? ==> r.value == reply.data.value
    ensures reply.NoReply? ==> r == Failure(ErrorFromCityHall(NoResponse(request.verb, request.resource)))
    ensures reply.Replied? && reply.data.None? ==> r == Failure(NullReference)
    ensures reply.Replied? && reply.data.Some? && !reply.data.value.IsValid() ==>
      r == Failure(ErrorFromCityHall(Rejected(reply.data.value.message)))
  {
    match reply
    case NoReply => Failure(ErrorFromCityHall(NoResponse(request.verb, request.resource)))
    case Replied(_, data) =>
      if data.None? then Failure(NullReference)
      else if !data.value.IsValid() then Failure(ErrorFromCityHall(Rejected(data.value.message)))
      else Success(data.value)
  }

  /** The two executors agree on every reply except one without a body. */
  lemma ExecutorsDifferOnlyOnMissingBody<P>(request: Request, reply: Reply<P>)
    ensures reply.Replied? && reply.data.None? ==>
      && LegacyClassify(request, reply) == Failure(NullReference)
      && Classify(request, reply) == Failure(ErrorFromCityHall(NoData(reply.statusCode)))
    ensures !(reply.Replied? && reply.data.None?) ==> LegacyClassify(request, reply) == Classify(request, reply)
  {
  }

  /** As `Plans.Performed`, with the legacy executor's verdict on the reply. */
  ghost predicate Performed<P, R>(step: Plans.Step, before: seq<Request>, after: seq<Request>, reply: Reply<P>,
                                  r: Outcome<R>, accept: (Envelope<P>, R) -> bool)
  {
    match step
    case Reject(e) => after == before && r == Failure(e)
    case Send(q) =>
      && after == before + [q]
      && match LegacyClassify(q, reply)
         case Failure(e) => r == Failure(e)
         case Success(env) => r.Success? && accept(env, r.value)
  }

  /** `SyncSettings.GetOverride`: null and "" both mean no override parameter. */
  function GetOverride(over: Option<string>): (args: map<string, string>)
    ensures "override" in args <==> !IsNullOrEmpty(over)
    ensures args.Keys <= {"override"}
    ensures !IsNullOrEmpty(over) ==> args["override"] == over.value
  {
    if IsNullOrEmpty(over) then map[] else map["override" := over.value]
  }

  /** `SyncSettings.Hash`: the digest in upper-case hex, with no test for the empty password. */
  function Hash(md5: string -> Password.Digest, password: string): (h: string)
    ensures |h| == 32 && Password.IsUpperHex(h)
    ensures Password.ParseHex(h) == md5(password)
  {
    Password.UpperHexRoundTrip(md5(password));
    Password.UpperHex(md5(password))
  }

  /** The two hashes carry the same digest; they differ only in the case of the hex letters. */
  lemma HashGenerations(md5: string -> Password.Digest, password: string)
    requires password != ""
    ensures Password.ToLower(Hash(md5, password)) == Password.Hash(md5, Some(password))
    ensures Password.ParseHex(Hash(md5, password)) == Password.ParseHex(Password.Hash(md5, Some(password)))
  {
    Password.LowerHexIsLoweredUpperHex(md5(password));
    Password.HashIsDigest(md5, password);
  }

  // ---------------------------------------------------------------------------
  // Plans of the legacy operations (those identical to the newer ones are in `Plans`)

  /** The login sends the user name and an empty hash, whatever the password. */
  function LoginRequest(user: string): Request {
    Plans.LoginRequest(user, "")
  }

  function PassHash(md5: string -> Password.Digest, password: Option<string>): string {
    if IsNullOrEmpty(password) then "" else Hash(md5, password.value)
  }

  /** `SetPassword`: POST `auth/user/{name}/` with the hash. */
  function SetPassword(s: Plans.Session, md5: string -> Password.Digest, userName: string, password: Option<string>): Plans.Step {
    TemplatesFit();
    Plans.Guarded(s, Plans.Plain(POST, Format(UserTemplate, [userName]), Some(Plans.PasshashBody(PassHash(md5, password)))))
  }

  function CreateUser(s: Plans.Session, md5: string -> Password.Digest, userName: string, password: Option<string>): Plans.Step {
    if userName == s.user then Plans.Reject(InvalidRequest) else SetPassword(s, md5, userName, password)
  }

  function UpdatePassword(s: Plans.Session, md5: string -> Password.Digest, password: Option<string>): Plans.Step {
    SetPassword(s, md5, s.user, password)
  }

  /** `GetRaw`: as the newer one, but the arguments are default-type parameters. */
  function GetRaw(s: Plans.Session, environment: Option<string>, path: Option<string>, args: Option<map<string, string>>): Plans.Step {
    TemplatesFit();
    Plans.Guarded(s, Request(GET, Plans.ValueLocation(OrEmpty(environment), path), None, map[], ArgsOrEmpty(args)))
  }

  function ResolvedRead(s: Plans.Session, environment: Option<string>, path: Option<string>, args: map<string, string>): Plans.Step {
    match Resolution.ResolveEnvironment(environment, s.defaultEnvironment)
    case Failure(e) => Plans.Reject(e)
    case Success(env) => GetRaw(s, Some(env), path, Some(args))
  }

  function GetValue(s: Plans.Session, path: Option<string>, environment: Option<string>, over: Option<string>): Plans.Step {
    ResolvedRead(s, environment, path, GetOverride(over))
  }

  function GetChildren(s: Plans.Session, path: Option<string>, environment: Option<string>): Plans.Step {
    ResolvedRead(s, environment, path, map["viewchildren" := "true"])
  }

  function GetHistory(s: Plans.Session, path: Option<string>, environment: Option<string>, over: Option<string>): Plans.Step {
    ResolvedRead(s, environment, path, GetOverride(over)["viewhistory" := "true"])
  }

  function ResolvedWrite(s: Plans.Session, verb: Method, environment: Option<string>, path: Option<string>,
                         body: Option<JsonObject>, over: Option<string>): Plans.Step
  {
    TemplatesFit();
    if !s.loggedIn then Plans.Reject(NotLoggedIn)
    else match Resolution.ResolveEnvironment(environment, s.defaultEnvironment)
      case Failure(e) => Plans.Reject(e)
      case Success(env) => Plans.Send(Request(verb, Plans.ValueLocation(env, path), body, map[], GetOverride(over)))
  }

  function SetRaw(s: Plans.Session, environment: Option<string>, path: Option<string>, value: Value, over: Option<string>): Plans.Step {
    ResolvedWrite(s, POST, environment, path, Some(value.ToPayload()), over)
  }

  function Set(s: Plans.Session, environment: Option<string>, path: Option<string>, value: Option<string>, over: Option<string>): Plans.Step {
    SetRaw(s, environment, path, ValueOf(value), over)
  }

  function SetProtect(s: Plans.Session, environment: Option<string>, path: Option<string>, protect: bool, over: Option<string>): Plans.Step {
    SetRaw(s, environment, path, ProtectOf(protect), over)
  }

  function Delete(s: Plans.Session, environment: Option<string>, path: Option<string>, over: Option<string>): Plans.Step {
    ResolvedWrite(s, DELETE, environment, path, None, over)
  }

  // ---------------------------------------------------------------------------
  // Properties of the legacy plans

  /**
   * A logged-out legacy session sends nothing. Every operation raises
   * NotLoggedIn, except where a check that comes first fails: the self-check
   * of `CreateUser`, and the environment resolution of the reads. The
   * operations the legacy session shares with the newer one are the plans of
   * `Plans`, for which `Plans.LoggedOutSendsNothing` holds.
   */
  lemma LoggedOutSendsNothing(s: Plans.Session, md5: string -> Password.Digest, name: string, password: Option<string>,
                              environment: Option<string>, path: Option<string>, over: Option<string>,
                              args: Option<map<string, string>>, value: Value, text: Option<string>, protect: bool)
    requires !s.loggedIn
    ensures CreateUser(s, md5, name, password) == Plans.Reject(if name == s.user then InvalidRequest else NotLoggedIn)
    ensures SetPassword(s, md5, name, password) == Plans.Reject(NotLoggedIn)
    ensures UpdatePassword(s, md5, password) == Plans.Reject(NotLoggedIn)
    ensures GetRaw(s, environment, path, args) == Plans.Reject(NotLoggedIn)
    ensures var unresolved := IsNullOrEmpty(environment) && IsNullOrEmpty(s.defaultEnvironment);
            var first := if unresolved then InvalidRequest else NotLoggedIn;
            && GetValue(s, path, environment, over) == Plans.Reject(first)
            && GetHistory(s, path, environment, over) == Plans.Reject(first)
            && GetChildren(s, path, environment) == Plans.Reject(first)
    ensures SetRaw(s, environment, path, value, over) == Plans.Reject(NotLoggedIn)
    ensures Set(s, environment, path, text, over) == Plans.Reject(NotLoggedIn)
    ensures SetProtect(s, environment, path, protect, over) == Plans.Reject(NotLoggedIn)
    ensures Delete(s, environment, path, over) == Plans.Reject(NotLoggedIn)
  {
    Resolution.ResolvedEnvironmentIsNonEmpty(environment, s.defaultEnvironment, s.defaultEnvironment);
  }

  /** The legacy `CreateUser` also refuses the session's own name whatever the session's state. */
  lemma CreateUserRefusesSelf(s: Plans.Session, md5: string -> Password.Digest, password: Option<string>)
    ensures CreateUser(s, md5, s.user, password) == Plans.Reject(InvalidRequest)
  {
  }

  /**
   * The requests of the legacy password operations: both POST
   * `auth/user/{name}/`; the hash is "" for a null or empty password and
   * otherwise 32 upper-case hex digits of the digest.
   */
  lemma UserRequests(s: Plans.Session, md5: string -> Password.Digest, name: string, password: Option<string>)
    requires s.loggedIn && name != s.user
    ensures CreateUser(s, md5, name, password) ==
              Plans.Send(Plans.Plain(POST, "auth/user/" + name + "/", Some(Plans.PasshashBody(PassHash(md5, password)))))
    ensures UpdatePassword(s, md5, password) ==
              Plans.Send(Plans.Plain(POST, "auth/user/" + s.user + "/", Some(Plans.PasshashBody(PassHash(md5, password)))))
    ensures IsNullOrEmpty(password) <==> PassHash(md5, password) == ""
    ensures !IsNullOrEmpty(password) ==>
              && |PassHash(md5, password)| == 32 && Password.IsUpperHex(PassHash(md5, password))
              && Password.ParseHex(PassHash(md5, password)) == md5(password.value)
  {
    TemplateResources(name, "", "");
    TemplateResources(s.user, "", "");
  }

  /**
   * Every value operation of a logged-in legacy session with a resolvable
   * environment addresses `env/{environment}{canonical path}`, the resource
   * the newer session uses, with its arguments as default-type parameters;
   * writes carry only the legacy override.
   */
  lemma ValueOperationsShareLocation(s: Plans.Session, environment: Option<string>, path: Option<string>,
                                     value: Value, over: Option<string>)
    requires s.loggedIn
    requires !(IsNullOrEmpty(environment) && IsNullOrEmpty(s.defaultEnvironment))
    ensures var env := Resolution.ResolveEnvironment(environment, s.defaultEnvironment).value;
            var location := "env/" + env + Resolution.CanonicalPath(path);
            && env != ""
            && GetValue(s, path, environment, over) == Plans.Send(Request(GET, location, None, map[], GetOverride(over)))
            && GetHistory(s, path, environment, over) ==
                 Plans.Send(Request(GET, location, None, map[], GetOverride(over)["viewhistory" := "true"]))
            && GetChildren(s, path, environment) ==
                 Plans.Send(Request(GET, location, None, map[], map["viewchildren" := "true"]))
            && SetRaw(s, environment, path, value, over) ==
                 Plans.Send(Request(POST, location, Some(value.ToPayload()), map[], GetOverride(over)))
            && Delete(s, environment, path, over) == Plans.Send(Request(DELETE, location, None, map[], GetOverride(over)))
    ensures over != Some("") ==> GetOverride(over) == Resolution.GetOverride(over)
  {
    Resolution.ResolvedEnvironmentIsNonEmpty(environment, s.defaultEnvironment, s.defaultEnvironment);
    Plans.LocationOf(Resolution.ResolveEnvironment(environment, s.defaultEnvironment).value, path);
  }

  // ---------------------------------------------------------------------------
  // How the generations differ

  /** The legacy login never carries the password: it matches the newer one only for a null or empty password. */
  lemma LoginGenerations(user: string, md5: string -> Password.Digest, password: Option<string>)
    ensures LoginRequest(user).body == Some(Plans.LoginBody(user, ""))
    ensures Plans.LoginRequest(user, Password.Hash(md5, password)) == LoginRequest(user) <==> IsNullOrEmpty(password)
  {
    if !IsNullOrEmpty(password) {
      var h := Password.Hash(md5, password);
      assert |h| == 32;
      assert Plans.LoginBody(user, h)[1].value == JString(h);
    }
  }

  /**
   * The legacy session cannot ask for the default value: an override of ""
   * is sent exactly as no override, where the newer session sends `override=`.
   */
  lemma EmptyOverrideGenerations(s: Plans.Session, path: Option<string>, environment: Option<string>)
    requires s.loggedIn && !IsNullOrEmpty(environment)
    ensures GetValue(s, path, environment, Some("")) == GetValue(s, path, environment, None)
    ensures GetValue(s, path, environment, Some("")).Send?
    ensures GetValue(s, path, environment, Some("")).request.getOrPost == map[]
    ensures Plans.GetValue(s, path, environment, Some("")).Send?
    ensures Plans.GetValue(s, path, environment, Some("")).request.query == map["override" := ""]
    ensures Plans.GetValue(s, path, environment, Some("")) != Plans.GetValue(s, path, environment, None)
  {
    Resolution.GetOverrideIsInjective(Some(""), None);
  }

  /**
   * For any other override both generations ask for the same resource with
   * the same names and values; the newer one sends them in the query string,
   * the legacy one as parameters of the default type.
   */
  lemma ParameterPlacement(s: Plans.Session, path: Option<string>, environment: Option<string>, over: Option<string>)
    requires s.loggedIn && !IsNullOrEmpty(environment) && over != Some("")
    ensures GetValue(s, path, environment, over).Send? && Plans.GetValue(s, path, environment, over).Send?
    ensures var current := Plans.GetValue(s, path, environment, over).request;
            var legacy := GetValue(s, path, environment, over).request;
            && current.resource == legacy.resource
            && current.query == legacy.getOrPost
            && current.getOrPost == map[] && legacy.query == map[]
  {
  }

  /** A null or empty password: both generations send an empty hash, by POST and by PUT respectively. */
  lemma EmptyPasswordGenerations(s: Plans.Session, md5: string -> Password.Digest, password: Option<string>)
    requires s.loggedIn && IsNullOrEmpty(password)
    ensures UpdatePassword(s, md5, password) ==
              Plans.Send(Plans.Plain(POST, "auth/user/" + s.user + "/", Some(Plans.PasshashBody(""))))
    ensures Plans.UpdatePassword(s, md5, password) ==
              Plans.Send(Plans.Plain(PUT, "auth/user/" + s.user + "/", Some(Plans.PasshashBody(""))))
  {
    TemplateResources(s.user, "", "");
    Plans.PassHashIsHash(md5, password);
  }

  /** Updating a password: POST with an upper-case hash, where the newer session PUTs a lower-case one. */
  lemma PasswordGenerations(s: Plans.Session, md5: string -> Password.Digest, password: string)
    requires s.loggedIn && password != ""
    ensures UpdatePassword(s, md5, Some(password)).Send? && Plans.UpdatePassword(s, md5, Some(password)).Send?
    ensures var legacy := UpdatePassword(s, md5, Some(password)).request;
            var current := Plans.UpdatePassword(s, md5, Some(password)).request;
            && legacy.verb == POST && current.verb == PUT
            && legacy.resource == current.resource == "auth/user/" + s.user + "/"
            && legacy.body == Some(Plans.PasshashBody(Hash(md5, password)))
            && current.body == Some(Plans.PasshashBody(Password.ToLower(Hash(md5, password))))
  {
    TemplateResources(s.user, "", "");
    HashGenerations(md5, password);
  }
}
