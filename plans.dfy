/**
 * What each session operation does before it reaches the transport: either it
 * raises (a client-side check failed, nothing is sent) or it sends exactly one
 * request. The session classes are proved against these functions.
 */
module Plans {
  import opened Wrappers
  import opened Wire
  import opened Exceptions
  import opened Responses
  import opened Data
  import opened Password
  import opened Resolution
  import opened Client

  /** The session state the checks read: `LoggedIn`, `User`, `DefaultEnvironment`. */
  datatype Session = Session(loggedIn: bool, user: string, defaultEnvironment: Option<string>)

  datatype Step = Reject(error: Error) | Send(request: Request)

  /**
   * `after` is `before` plus the step's request, if any, and `r` is what the
   * operation returns: the check's error, the executor's error, or a value
   * that `accept` relates to the envelope the executor returned.
   */
  ghost predicate Performed<P, R>(step: Step, before: seq<Request>, after: seq<Request>, reply: Reply<P>,
                                  r: Outcome<R>, accept: (Envelope<P>, R) -> bool)
  {
    match step
    case Reject(e) => after == before && r == Failure(e)
    case Send(q) =>
      && after == before + [q]
      && match Classify(q, reply)
         case Failure(e) => r == Failure(e)
         case Success(env) => r.Success? && accept(env, r.value)
  }

  /** The result is `decode` applied to the envelope the executor returned. */
  ghost function Decoded<P, R>(decode: Envelope<P> -> R): (Envelope<P>, R) -> bool {
    (e: Envelope<P>, v: R) => v == decode(e)
  }

  /** A request built by `Post`, `Get`, `DeleteFormat` or `Put`: no parameters. */
  function Plain(verb: Method, resource: string, body: Option<JsonObject>): Request {
    Request(verb, resource, body, map[], map[])
  }

  /** `EnsureLoggedIn()` followed by sending `q`. */
  function Guarded(s: Session, q: Request): Step {
    if s.loggedIn then Send(q) else Reject(NotLoggedIn)
  }

  // ---------------------------------------------------------------------------
  // Session lifecycle

  function LoginBody(user: string, passhash: string): JsonObject {
    [Member("username", JString(user)), Member("passhash", JString(passhash))]
  }

  function LoginRequest(user: string, passhash: string): Request {
    Plain(POST, Format(AuthTemplate, []), Some(LoginBody(user, passhash)))
  }

  function DefaultEnvironmentRequest(user: string): Request
  {
    TemplatesFit();
    Plain(GET, Format(DefaultEnvironmentTemplate, [user]), None)
  }

  /** The state a successful login leaves: logged in as `user`, with the fetched default or null. */
  function AfterLogin(user: string, fetched: Outcome<ValueResponse>): (s: Session)
    ensures s.loggedIn && s.user == user
    ensures fetched.Failure? ==> s.defaultEnvironment.None?
    ensures fetched.Success? ==> s.defaultEnvironment == fetched.value.payload
  {
    Session(true, user, if fetched.Success? then fetched.value.payload else None)
  }

  function LogoutRequest(): Request {
    Plain(DELETE, Format(AuthTemplate, []), None)
  }

  /** The request `Logout` sends: one DELETE when logged in, nothing otherwise. */
  function LogoutPlan(s: Session): (r: Option<Request>)
    ensures r.Some? <==> s.loggedIn
    ensures r.Some? ==> r.value == Request(DELETE, "auth/", None, map[], map[])
  {
    TemplateResources("", "", "");
    if s.loggedIn then Some(LogoutRequest()) else None
  }

  /** The state after `Logout`: logged out once the DELETE succeeded; a failed DELETE changes nothing. */
  function AfterLogout(s: Session, deleted: Outcome<BaseResponse>): (t: Session)
    ensures t.user == s.user && t.defaultEnvironment == s.defaultEnvironment
    ensures t.loggedIn <==> s.loggedIn && deleted.Failure?
  {
    if s.loggedIn && deleted.Success? then s.(loggedIn := false) else s
  }

  /** Logging out twice sends one DELETE at most, and the second call changes nothing. */
  lemma LogoutIsIdempotent(s: Session, first: Outcome<BaseResponse>, second: Outcome<BaseResponse>)
    requires s.loggedIn && first.Success?
    ensures LogoutPlan(s) == Some(Plain(DELETE, "auth/", None))
    ensures LogoutPlan(AfterLogout(s, first)) == None
    ensures AfterLogout(AfterLogout(s, first), second) == AfterLogout(s, first)
    ensures !AfterLogout(s, first).loggedIn
  {
    TemplateResources("", "", "");
  }

  // ---------------------------------------------------------------------------
  // Users

  /** The hash `CreateUser` and `UpdatePassword` send: "" for a null or empty password. */
  function PassHash(md5: string -> Digest, password: Option<string>): string {
    if IsNullOrEmpty(password) then "" else Hash(md5, password)
  }

  /** The extra emptiness test in front of `Password.Hash` changes nothing. */
  lemma PassHashIsHash(md5: string -> Digest, password: Option<string>)
    ensures PassHash(md5, password) == Hash(md5, password)
    ensures IsNullOrEmpty(password) ==> PassHash(md5, password) == ""
  {
  }

  function PasshashBody(hash: string): JsonObject {
    [Member("passhash", JString(hash))]
  }

  /** `CreateUser`: the self-check, then `EnsureLoggedIn`, then POST `auth/user/{name}/`. */
  function CreateUser(s: Session, md5: string -> Digest, userName: string, password: Option<string>): Step
  {
    TemplatesFit();
    if userName == s.user then Reject(InvalidRequest)
    else Guarded(s, Plain(POST, Format(UserTemplate, [userName]), Some(PasshashBody(PassHash(md5, password)))))
  }

  /** `UpdatePassword`: PUT `auth/user/{User}/`. */
  function UpdatePassword(s: Session, md5: string -> Digest, password: Option<string>): Step
  {
    TemplatesFit();
    Guarded(s, Plain(PUT, Format(UserTemplate, [s.user]), Some(PasshashBody(PassHash(md5, password)))))
  }

  /** `DeleteUser`: DELETE `auth/user/{name}/`, with no self-check. */
  function DeleteUser(s: Session, userName: string): Step
  {
    TemplatesFit();
    Guarded(s, Plain(DELETE, Format(UserTemplate, [userName]), None))
  }

  function GrantBody(userName: string, environment: Option<string>, rights: Rights): JsonObject {
    [Member("env", Text(environment)), Member("user", JString(userName)), Member("rights", JInt(rights))]
  }

  /** `Grant`: POST `auth/grant/` with the environment, the user and the rights as an integer. */
  function Grant(s: Session, userName: string, environment: Option<string>, rights: Rights): Step {
    Guarded(s, Plain(POST, Format(GrantTemplate, []), Some(GrantBody(userName, environment, rights))))
  }

  /** `Get` / `GetUserInfo`: GET `auth/user/{name}`, without a trailing '/'. */
  function GetUser(s: Session, userName: string): Step
  {
    TemplatesFit();
    Guarded(s, Plain(GET, Format(UserInfoTemplate, [userName]), None))
  }

  // ---------------------------------------------------------------------------
  // Environments

  /** `Get` / `GetEnvironment`: GET `auth/env/{name}/`. */
  function GetEnvironment(s: Session, envName: string): Step
  {
    TemplatesFit();
    Guarded(s, Plain(GET, Format(EnvironmentTemplate, [envName]), None))
  }

  /** `Create` / `CreateEnvironment`: POST `auth/env/{name}/` with an empty object. */
  function CreateEnvironment(s: Session, envName: string): Step
  {
    TemplatesFit();
    Guarded(s, Plain(POST, Format(EnvironmentTemplate, [envName]), Some([])))
  }

  /** `SetDefault` / `SetDefaultEnvironment`: POST `auth/user/{User}/default/` with `{env}`. */
  function SetDefaultEnvironment(s: Session, env: Option<string>): Step
  {
    TemplatesFit();
    Guarded(s, Plain(POST, Format(DefaultEnvironmentTemplate, [s.user]), Some([Member("env", Text(env))])))
  }

  // ---------------------------------------------------------------------------
  // Values

  /** `env/{environment}{SanitizePath(path)}` */
  function ValueLocation(env: string, path: Option<string>): string
  {
    TemplatesFit();
    Format(ValueTemplate, [env, CanonicalPath(path)])
  }

  /** The location of a value: the environment after `env/`, then the canonical path. */
  lemma LocationOf(env: string, path: Option<string>)
    ensures ValueLocation(env, path) == "env/" + env + CanonicalPath(path)
  {
    TemplateResources("", env, CanonicalPath(path));
  }

  /** `GetRaw`: `EnsureLoggedIn`, then GET the value location with `args` as they are. */
  function GetRaw(s: Session, environment: Option<string>, path: Option<string>, args: Option<map<string, string>>): Step
  {
    Guarded(s, Request(GET, ValueLocation(OrEmpty(environment), path), None, ArgsOrEmpty(args), map[]))
  }

  /** A read that resolves the environment first (it is an argument of `GetRaw`), then reads with `args`. */
  function ResolvedRead(s: Session, environment: Option<string>, path: Option<string>, args: map<string, string>): Step
  {
    match ResolveEnvironment(environment, s.defaultEnvironment)
    case Failure(e) => Reject(e)
    case Success(env) => GetRaw(s, Some(env), path, Some(args))
  }

  /** `GetValue` */
  function GetValue(s: Session, path: Option<string>, environment: Option<string>, over: Option<string>): Step
  {
    ResolvedRead(s, environment, path, GetOverride(over))
  }

  /** The parameters of `GetHistory`: the override, then `viewhistory=true`. */
  function HistoryArgs(over: Option<string>): map<string, string> {
    GetOverride(over)["viewhistory" := "true"]
  }

  /** `GetHistory` */
  function GetHistory(s: Session, path: Option<string>, over: Option<string>, environment: Option<string>): Step
  {
    ResolvedRead(s, environment, path, HistoryArgs(over))
  }

  /** `GetChildren`: `viewchildren=true` and never an override. */
  function GetChildren(s: Session, path: Option<string>, environment: Option<string>): Step
  {
    ResolvedRead(s, environment, path, map["viewchildren" := "true"])
  }

  /** A write that checks the login first, then resolves the environment. */
  function ResolvedWrite(s: Session, verb: Method, environment: Option<string>, path: Option<string>,
                         body: Option<JsonObject>, over: Option<string>): Step
  {
    if !s.loggedIn then Reject(NotLoggedIn)
    else match ResolveEnvironment(environment, s.defaultEnvironment)
      case Failure(e) => Reject(e)
      case Success(env) => Send(Request(verb, ValueLocation(env, path), body, GetOverride(over), map[]))
  }

  /** `SetRaw`: POST the sparse payload to the value location. */
  function SetRaw(s: Session, environment: Option<string>, path: Option<string>, value: Value, over: Option<string>): Step
  {
    ResolvedWrite(s, POST, environment, path, Some(value.ToPayload()), over)
  }

  /** `Set`: `SetRaw` with `new Value(value)`. */
  function Set(s: Session, environment: Option<string>, path: Option<string>, value: Option<string>, over: Option<string>): Step
  {
    SetRaw(s, environment, path, ValueOf(value), over)
  }

  /** `SetProtect`: `SetRaw` with `new Value(protect)`. */
  function SetProtect(s: Session, environment: Option<string>, path: Option<string>, protect: bool, over: Option<string>): Step
  {
    SetRaw(s, environment, path, ProtectOf(protect), over)
  }

  /** `Delete`: DELETE the value location. */
  function Delete(s: Session, environment: Option<string>, path: Option<string>, over: Option<string>): Step
  {
    ResolvedWrite(s, DELETE, environment, path, None, over)
  }

  // ---------------------------------------------------------------------------
  // Properties of the plans

  /**
   * Logged out, nothing reaches the server. Every operation raises
   * NotLoggedIn, except where a check that comes first fails: the self-check
   * of `CreateUser`, and the environment of a read, which is resolved while
   * the arguments of `GetRaw` are evaluated.
   */
  lemma LoggedOutSendsNothing(s: Session, md5: string -> Digest, name: string, password: Option<string>,
                              environment: Option<string>, path: Option<string>, over: Option<string>,
                              value: Value, rights: Rights)
    requires !s.loggedIn
    ensures CreateUser(s, md5, name, password) == Reject(if name == s.user then InvalidRequest else NotLoggedIn)
    ensures UpdatePassword(s, md5, password) == Reject(NotLoggedIn)
    ensures DeleteUser(s, name) == Reject(NotLoggedIn)
    ensures Grant(s, name, environment, rights) == Reject(NotLoggedIn)
    ensures GetUser(s, name) == Reject(NotLoggedIn)
    ensures GetEnvironment(s, name) == Reject(NotLoggedIn)
    ensures CreateEnvironment(s, name) == Reject(NotLoggedIn)
    ensures SetDefaultEnvironment(s, environment) == Reject(NotLoggedIn)
    ensures GetRaw(s, environment, path, None) == Reject(NotLoggedIn)
    ensures var unresolved := IsNullOrEmpty(environment) && IsNullOrEmpty(s.defaultEnvironment);
            var first := if unresolved then InvalidRequest else NotLoggedIn;
            && GetValue(s, path, environment, over) == Reject(first)
            && GetHistory(s, path, over, environment) == Reject(first)
            && GetChildren(s, path, environment) == Reject(first)
    ensures SetRaw(s, environment, path, value, over) == Reject(NotLoggedIn)
    ensures Delete(s, environment, path, over) == Reject(NotLoggedIn)
  {
    ResolvedEnvironmentIsNonEmpty(environment, s.defaultEnvironment, s.defaultEnvironment);
  }

  /**
   * Every value operation of a logged-in session with a resolvable
   * environment addresses the same resource, `env/{environment}/{path}/`,
   * and writes carry the override as their only parameter.
   */
  lemma ValueOperationsShareLocation(s: Session, environment: Option<string>, path: Option<string>,
                                     value: Value, over: Option<string>)
    requires s.loggedIn
    requires !(IsNullOrEmpty(environment) && IsNullOrEmpty(s.defaultEnvironment))
    ensures var env := ResolveEnvironment(environment, s.defaultEnvironment).value;
            var location := ValueLocation(env, path);
            && location == "env/" + env + CanonicalPath(path)
            && env != "" && Wrapped(CanonicalPath(path))
            && GetValue(s, path, environment, over) == Send(Request(GET, location, None, GetOverride(over), map[]))
            && GetHistory(s, path, over, environment) == Send(Request(GET, location, None, HistoryArgs(over), map[]))
            && GetChildren(s, path, environment) == Send(Request(GET, location, None, map["viewchildren" := "true"], map[]))
            && SetRaw(s, environment, path, value, over) == Send(Request(POST, location, Some(value.ToPayload()), GetOverride(over), map[]))
            && Delete(s, environment, path, over) == Send(Request(DELETE, location, None, GetOverride(over), map[]))
  {
    ResolvedEnvironmentIsNonEmpty(environment, s.defaultEnvironment, s.defaultEnvironment);
    LocationOf(ResolveEnvironment(environment, s.defaultEnvironment).value, path);
  }

  /** `GetHistory` always asks for the history, and passes the override exactly when one was given. */
  lemma HistoryArgsHold(over: Option<string>)
    ensures HistoryArgs(over).Keys == (if over.Some? then {"override", "viewhistory"} else {"viewhistory"})
    ensures HistoryArgs(over)["viewhistory"] == "true"
    ensures over.Some? ==> HistoryArgs(over)["override"] == over.value
  {
    var m := HistoryArgs(over);
    if over.Some? {
      assert "override" in m;
    } else {
      assert GetOverride(over) == map[];
    }
  }

  /** `Set` sends only the value (or nothing for null) and `SetProtect` only the flag. */
  lemma SetBodies(s: Session, environment: Option<string>, path: Option<string>, text: Option<string>,
                  protect: bool, over: Option<string>)
    requires s.loggedIn && !IsNullOrEmpty(environment)
    ensures Set(s, environment, path, text, over).Send?
    ensures Set(s, environment, path, text, over).request.body ==
              Some(if text.Some? then [Member("value", JString(text.value))] else [])
    ensures SetProtect(s, environment, path, protect, over).Send?
    ensures SetProtect(s, environment, path, protect, over).request.body == Some([Member("protect", JBool(protect))])
  {
    ConstructorPayloads(if text.Some? then text.value else "", protect);
  }

  /** The resources of the user operations: all but `GetUser` end with '/'. */
  lemma UserRequests(s: Session, md5: string -> Digest, name: string, password: Option<string>)
    requires s.loggedIn && name != s.user
    ensures CreateUser(s, md5, name, password) ==
              Send(Plain(POST, "auth/user/" + name + "/", Some(PasshashBody(Hash(md5, password)))))
    ensures UpdatePassword(s, md5, password) ==
              Send(Plain(PUT, "auth/user/" + s.user + "/", Some(PasshashBody(Hash(md5, password)))))
    ensures DeleteUser(s, name) == Send(Plain(DELETE, "auth/user/" + name + "/", None))
    ensures GetUser(s, name) == Send(Plain(GET, "auth/user/" + name, None))
    ensures IsNullOrEmpty(password) ==> UpdatePassword(s, md5, password).request.body == Some(PasshashBody(""))
  {
    TemplateResources(name, "", "");
    TemplateResources(s.user, "", "");
    PassHashIsHash(md5, password);
  }

  /**
   * The requests of the rights and environment operations of a logged-in
   * session: the grant and the new default carry the environment as given
   * (null stays null), a new environment is created with an empty object.
   */
  lemma EnvironmentRequests(s: Session, name: string, userName: string, environment: Option<string>, rights: Rights)
    requires s.loggedIn
    ensures Grant(s, userName, environment, rights) ==
              Send(Plain(POST, "auth/grant/", Some(GrantBody(userName, environment, rights))))
    ensures GrantBody(userName, environment, rights) ==
              [Member("env", Text(environment)), Member("user", JString(userName)), Member("rights", JInt(rights))]
    ensures GetEnvironment(s, name) == Send(Plain(GET, "auth/env/" + name + "/", None))
    ensures CreateEnvironment(s, name) == Send(Plain(POST, "auth/env/" + name + "/", Some([])))
    ensures SetDefaultEnvironment(s, environment) ==
              Send(Plain(POST, "auth/user/" + s.user + "/default/", Some([Member("env", Text(environment))])))
  {
    TemplateResources(name, "", "");
    TemplateResources(s.user, "", "");
  }

  /** `CreateUser` refuses the session's own name whatever the session's state. */
  lemma CreateUserRefusesSelf(s: Session, md5: string -> Digest, password: Option<string>)
    ensures CreateUser(s, md5, s.user, password) == Reject(InvalidRequest)
  {
  }

  /** A read of a logged-in session whose environment resolves to `env`. */
  lemma ReadAt(s: Session, environment: Option<string>, env: string, path: Option<string>, args: map<string, string>)
    requires s.loggedIn && ResolveEnvironment(environment, s.defaultEnvironment) == Success(env)
    ensures ResolvedRead(s, environment, path, args)
              == Send(Request(GET, "env/" + env + CanonicalPath(path), None, args, map[]))
  {
    LocationOf(env, path);
  }

  /** A write of a logged-in session whose environment resolves to `env`. */
  lemma WriteAt(s: Session, verb: Method, environment: Option<string>, env: string, path: Option<string>,
                body: Option<JsonObject>, over: Option<string>)
    requires s.loggedIn && ResolveEnvironment(environment, s.defaultEnvironment) == Success(env)
    ensures ResolvedWrite(s, verb, environment, path, body, over)
              == Send(Request(verb, "env/" + env + CanonicalPath(path), body, GetOverride(over), map[]))
  {
    LocationOf(env, path);
  }

  /** The locations of the reads below. */
  lemma DevLocations()
    ensures "env/" + "dev" + CanonicalPath(Some("value1")) == "env/dev/value1/"
    ensures "env/" + "dev" + CanonicalPath(None) == "env/dev/"
  {
    assert CanonicalPath(Some("value1")) == "/value1/";
  }

  /** The location of the writes below: one path has both slashes, the other lacks the leading one. */
  lemma QaLocations()
    ensures "env/" + "qa" + CanonicalPath(Some("/value1/")) == "env/qa/value1/"
    ensures "env/" + "qa" + CanonicalPath(Some("value1/")) == "env/qa/value1/"
  {
    assert CanonicalPath(Some("/value1/")) == "/value1/";
    assert CanonicalPath(Some("value1/")) == "/value1/";
  }

  /** Reads through the session's default environment. */
  lemma ReadScenarios(user: string)
    ensures GetValue(Session(true, user, Some("dev")), Some("value1"), None, None)
              == Send(Request(GET, "env/dev/value1/", None, map[], map[]))
    ensures GetChildren(Session(true, user, Some("dev")), None, None)
              == Send(Request(GET, "env/dev/", None, map["viewchildren" := "true"], map[]))
  {
    var s := Session(true, user, Some("dev"));
    ReadAt(s, None, "dev", Some("value1"), GetOverride(None));
    ReadAt(s, None, "dev", None, map["viewchildren" := "true"]);
    DevLocations();
  }

  /** A delete of an override in an explicit environment, from an already canonical path. */
  lemma DeleteScenario(user: string)
    ensures Delete(Session(true, user, None), Some("qa"), Some("/value1/"), Some("cityhall"))
              == Send(Request(DELETE, "env/qa/value1/", None, map["override" := "cityhall"], map[]))
  {
    WriteAt(Session(true, user, None), DELETE, Some("qa"), "qa", Some("/value1/"), None, Some("cityhall"));
    QaLocations();
  }

  /** An explicit environment wins over the default, and the path gets its leading '/'. */
  lemma SetProtectScenario(user: string)
    ensures SetProtect(Session(true, user, Some("dev")), Some("qa"), Some("value1/"), false, Some("cityhall"))
              == Send(Request(POST, "env/qa/value1/", Some([Member("protect", JBool(false))]),
                              map["override" := "cityhall"], map[]))
  {
    WriteAt(Session(true, user, Some("dev")), POST, Some("qa"), "qa", Some("value1/"),
            Some(ProtectOf(false).ToPayload()), Some("cityhall"));
    QaLocations();
  }
}
