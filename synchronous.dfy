/**
 * The current session generation: `SyncSettingsInstance`, the `SyncValues`
 * sub-client its login attaches, and the stand-alone `SyncUsers` and
 * `SyncEnvironments` classes over a session. Every request-sending operation
 * is proved to do what its plan in `Plans` says: raise without sending, or
 * send that one request and return what the executor's classification of the
 * reply gives.
 */
module Synchronous {
  import opened Wrappers
  import opened Wire
  import opened Exceptions
  import opened Responses
  import opened Data
  import opened Password
  import opened Resolution
  import opened Client
  import Plans

  /**
   * A session with a City Hall server. In C# it derives from `SyncClient`;
   * here it holds one, and `http.client` is the transport it shares with
   * the sub-clients.
   */
  class SyncSettingsInstance {
    const http: SyncClient
    var LoggedIn: bool
    var User: string
    var DefaultEnvironment: Option<string>
    var Values: SyncValues?

    /** The values sub-client is the one the login made for this session. */
    ghost predicate Valid()
      reads this, Values
    {
      Values != null && Values.client == this
    }

    /** The state the session's checks read. */
    function View(): Plans.Session
      reads this
    {
      Plans.Session(LoggedIn, User, DefaultEnvironment)
    }

    /** The object before the login call of the C# constructor: not logged in, nothing sent. */
    constructor Connect(transport: RestClient)
      ensures http.client == transport
      ensures !LoggedIn && User == "" && DefaultEnvironment.None? && Values == null
    {
      http := new SyncClient(transport);
      LoggedIn := false;
      User := "";
      DefaultEnvironment := None;
      Values := null;
    }

    /**
     * The C# constructor: log in with the hashed password, then fetch the
     * user's default environment; a failed fetch leaves the default null.
     * A failed login raises, so no session exists.
     */
    static method Login(transport: RestClient, user: string, password: Option<string>, md5: string -> Digest,
                        loginReply: Reply<()>, defaultReply: Reply<Option<string>>)
      returns (r: Outcome<SyncSettingsInstance>)
      modifies transport
      ensures var login := Plans.LoginRequest(user, Hash(md5, password));
              var fetch := Plans.DefaultEnvironmentRequest(user);
              match Classify(login, loginReply)
              case Failure(e) => r == Failure(e) && transport.sent == old(transport.sent) + [login]
              case Success(_) =>
                && transport.sent == old(transport.sent) + [login, fetch]
                && r.Success? && fresh(r.value) && fresh(r.value.Values)
                && r.value.http.client == transport
                && r.value.Valid()
                && r.value.View() == Plans.AfterLogin(user, Classify(fetch, defaultReply))
    {
      var session := new SyncSettingsInstance.Connect(transport);
      TemplatesFit();
      var login := session.http.Post(Plans.LoginBody(user, Hash(md5, password)), AuthTemplate, [], loginReply);
      if login.Failure? {
        return Failure(login.error);
      }
      if login.value.IsValid() {
        var fetched := session.http.Get(DefaultEnvironmentTemplate, [user], defaultReply);
        session.DefaultEnvironment := if fetched.Success? then fetched.value.payload else None;
        session.User := user;
        session.LoggedIn := true;
        session.Values := new SyncValues(session);
      }
      r := Success(session);
    }

    /** Raises NotLoggedIn unless the session is logged in. */
    function EnsureLoggedIn(): (r: Outcome<()>)
      reads this
      ensures r.Success? <==> LoggedIn
      ensures r.Failure? ==> r.error == NotLoggedIn
    {
      if !LoggedIn then Failure(NotLoggedIn) else Success(())
    }

    /** Ends the session with one DELETE; a second call, or a call after a failed login, sends nothing. */
    method Logout(reply: Reply<()>) returns (r: Outcome<()>)
      modifies this, http.client
      ensures User == old(User) && DefaultEnvironment == old(DefaultEnvironment) && Values == old(Values)
      ensures old(Valid()) ==> Valid()
      ensures match Plans.LogoutPlan(old(View()))
              case None => http.client.sent == old(http.client.sent) && r.Success? && View() == old(View())
              case Some(q) =>
                && http.client.sent == old(http.client.sent) + [q]
                && var deleted := Classify(q, reply);
                   && View() == Plans.AfterLogout(old(View()), deleted)
                   && (deleted.Failure? ==> r == Failure(deleted.error))
                   && (deleted.Success? ==> r.Success?)
    {
      if LoggedIn {
        var deleted := http.DeleteFormat(AuthTemplate, [], reply);
        if deleted.Failure? {
          return Failure(deleted.error);
        }
        LoggedIn := false;
      }
      r := Success(());
    }

    /** Stores a default environment on the server; the session's own default is not changed. */
    method SetDefaultEnvironment(defaultEnvironment: Option<string>, reply: Reply<()>) returns (r: Outcome<()>)
      modifies http.client
      ensures DefaultEnvironment == old(DefaultEnvironment)
      ensures Plans.Performed(Plans.SetDefaultEnvironment(View(), defaultEnvironment),
                              old(http.client.sent), http.client.sent, reply, r, Plans.Decoded((e: BaseResponse) => ()))
    {
      var ok := EnsureLoggedIn();
      if ok.Failure? {
        return Failure(ok.error);
      }
      TemplatesFit();
      var response := http.Post([Member("env", Text(defaultEnvironment))], DefaultEnvironmentTemplate, [User], reply);
      if response.Failure? {
        return Failure(response.error);
      }
      r := Success(());
    }

    /** The users of an environment and their rights. */
    method GetEnvironment(envName: string, reply: Reply<map<string, int>>) returns (r: Outcome<EnvironmentInfo>)
      modifies http.client
      ensures Plans.Performed(Plans.GetEnvironment(View(), envName), old(http.client.sent), http.client.sent, reply, r,
                              (e: RightsResponse, info: EnvironmentInfo) => DescribesUsers(info, e.payload))
    {
      var ok := EnsureLoggedIn();
      if ok.Failure? {
        return Failure(ok.error);
      }
      TemplatesFit();
      var response := http.Get(EnvironmentTemplate, [envName], reply);
      if response.Failure? {
        return Failure(response.error);
      }
      var kvs := Enumerate(response.value.payload);
      r := Success(ToEnvironmentInfo(kvs));
    }

    method CreateEnvironment(envName: string, reply: Reply<()>) returns (r: Outcome<()>)
      modifies http.client
      ensures Plans.Performed(Plans.CreateEnvironment(View(), envName), old(http.client.sent), http.client.sent,
                              reply, r, Plans.Decoded((e: BaseResponse) => ()))
    {
      var ok := EnsureLoggedIn();
      if ok.Failure? {
        return Failure(ok.error);
      }
      TemplatesFit();
      var response := http.Post([], EnvironmentTemplate, [envName], reply);
      if response.Failure? {
        return Failure(response.error);
      }
      r := Success(());
    }

    /** The environments a user has rights on, and those rights. */
    method GetUserInfo(userName: string, reply: Reply<map<string, int>>) returns (r: Outcome<UserInfo>)
      modifies http.client
      ensures Plans.Performed(Plans.GetUser(View(), userName), old(http.client.sent), http.client.sent, reply, r,
                              (e: RightsResponse, info: UserInfo) => DescribesEnvironments(info, e.payload))
    {
      var ok := EnsureLoggedIn();
      if ok.Failure? {
        return Failure(ok.error);
      }
      TemplatesFit();
      var response := http.Get(UserInfoTemplate, [userName], reply);
      if response.Failure? {
        return Failure(response.error);
      }
      var kvs := Enumerate(response.value.payload);
      r := Success(ToUserInfo(kvs));
    }

    /** Creates another user; the session's own name is refused before anything else is checked. */
    method CreateUser(userName: string, password: Option<string>, md5: string -> Digest, reply: Reply<()>)
      returns (r: Outcome<()>)
      modifies http.client
      ensures Plans.Performed(Plans.CreateUser(View(), md5, userName, password), old(http.client.sent), http.client.sent,
                              reply, r, Plans.Decoded((e: BaseResponse) => ()))
    {
      if userName == User {
        return Failure(InvalidRequest);
      }
      var ok := EnsureLoggedIn();
      if ok.Failure? {
        return Failure(ok.error);
      }
      var hash := if IsNullOrEmpty(password) then "" else Hash(md5, password);
      TemplatesFit();
      var response := http.Post(Plans.PasshashBody(hash), UserTemplate, [userName], reply);
      if response.Failure? {
        return Failure(response.error);
      }
      r := Success(());
    }

    method UpdatePassword(password: Option<string>, md5: string -> Digest, reply: Reply<()>) returns (r: Outcome<()>)
      modifies http.client
      ensures Plans.Performed(Plans.UpdatePassword(View(), md5, password), old(http.client.sent), http.client.sent,
                              reply, r, Plans.Decoded((e: BaseResponse) => ()))
    {
      var ok := EnsureLoggedIn();
      if ok.Failure? {
        return Failure(ok.error);
      }
      var hash := if IsNullOrEmpty(password) then "" else Hash(md5, password);
      TemplatesFit();
      var response := http.Put(Plans.PasshashBody(hash), UserTemplate, [User], reply);
      if response.Failure? {
        return Failure(response.error);
      }
      r := Success(());
    }

    method DeleteUser(userName: string, reply: Reply<()>) returns (r: Outcome<()>)
      modifies http.client
      ensures Plans.Performed(Plans.DeleteUser(View(), userName), old(http.client.sent), http.client.sent,
                              reply, r, Plans.Decoded((e: BaseResponse) => ()))
    {
      var ok := EnsureLoggedIn();
      if ok.Failure? {
        return Failure(ok.error);
      }
      TemplatesFit();
      var response := http.DeleteFormat(UserTemplate, [userName], reply);
      if response.Failure? {
        return Failure(response.error);
      }
      r := Success(());
    }

    method Grant(userName: string, environment: Option<string>, rights: Rights, reply: Reply<()>) returns (r: Outcome<()>)
      modifies http.client
      ensures Plans.Performed(Plans.Grant(View(), userName, environment, rights), old(http.client.sent), http.client.sent,
                              reply, r, Plans.Decoded((e: BaseResponse) => ()))
    {
      var ok := EnsureLoggedIn();
      if ok.Failure? {
        return Failure(ok.error);
      }
      var response := http.Post(Plans.GrantBody(userName, environment, rights), GrantTemplate, [], reply);
      if response.Failure? {
        return Failure(response.error);
      }
      r := Success(());
    }

    /** Delegates to the values sub-client. */
    method GetValue(path: Option<string>, environment: Option<string>, over: Option<string>, reply: Reply<Option<string>>)
      returns (r: Outcome<Option<string>>)
      requires Valid()
      modifies http.client
      ensures Plans.Performed(Plans.GetValue(View(), path, environment, over), old(http.client.sent), http.client.sent,
                              reply, r, Plans.Decoded((e: ValueResponse) => e.payload))
    {
      r := Values.GetValue(path, environment, over, reply);
    }

    /** Puts a '/' in front of and behind the path where one is missing; null or "" is the root. */
    static method SanitizePath(path: Option<string>) returns (r: string)
      ensures r == CanonicalPath(path)
    {
      if IsNullOrEmpty(path) {
        return "/";
      }
      var p := path.value;
      var sb: string := "";
      var sbUsed := false;
      if p[0] != '/' {
        sbUsed := true;
        sb := sb + "/";
      }
      sb := sb + p;
      if p[|p| - 1] != '/' {
        sbUsed := true;
        sb := sb + "/";
      }
      r := if sbUsed then sb else p;
    }
  }

  /** `SyncValues`: reads and writes values through its session. */
  class SyncValues {
    const client: SyncSettingsInstance

    constructor(client: SyncSettingsInstance)
      ensures this.client == client
    {
      this.client := client;
    }

    method GetValue(path: Option<string>, environment: Option<string>, over: Option<string>, reply: Reply<Option<string>>)
      returns (r: Outcome<Option<string>>)
      modifies client.http.client
      ensures Plans.Performed(Plans.GetValue(client.View(), path, environment, over),
                              old(client.http.client.sent), client.http.client.sent,
                              reply, r, Plans.Decoded((e: ValueResponse) => e.payload))
    {
      var env := ResolveEnvironment(environment, client.DefaultEnvironment);
      if env.Failure? {
        return Failure(env.error);
      }
      var response := GetRaw(Some(env.value), path, Some(GetOverride(over)), reply);
      if response.Failure? {
        return Failure(response.error);
      }
      r := Success(response.value.payload);
    }

    /** GET `env/{environment}{SanitizePath(path)}` with `args` as query parameters. */
    method GetRaw<P>(environment: Option<string>, path: Option<string>, args: Option<map<string, string>>, reply: Reply<P>)
      returns (r: Outcome<Envelope<P>>)
      modifies client.http.client
      ensures Plans.Performed(Plans.GetRaw(client.View(), environment, path, args),
                              old(client.http.client.sent), client.http.client.sent,
                              reply, r, Plans.Decoded((e: Envelope<P>) => e))
    {
      var ok := client.EnsureLoggedIn();
      if ok.Failure? {
        return Failure(ok.error);
      }
      var canonical := SyncSettingsInstance.SanitizePath(path);
      TemplatesFit();
      var location := Format(ValueTemplate, [OrEmpty(environment), canonical]);
      r := client.http.GetWithParameters(location, args, reply);
    }

    method GetHistory(path: Option<string>, over: Option<string>, environment: Option<string>, reply: Reply<seq<LogEntry>>)
      returns (r: Outcome<History>)
      modifies client.http.client
      ensures Plans.Performed(Plans.GetHistory(client.View(), path, over, environment),
                              old(client.http.client.sent), client.http.client.sent,
                              reply, r, Plans.Decoded((e: HistoryResponse) => ToHistory(e.payload)))
    {
      var paramDict := GetOverride(over);
      paramDict := paramDict["viewhistory" := "true"];
      var env := ResolveEnvironment(environment, client.DefaultEnvironment);
      if env.Failure? {
        return Failure(env.error);
      }
      var response := GetRaw(Some(env.value), path, Some(paramDict), reply);
      if response.Failure? {
        return Failure(response.error);
      }
      r := Success(ToHistory(response.value.payload));
    }

    method GetChildren(path: Option<string>, environment: Option<string>, reply: Reply<ChildrenPayload>)
      returns (r: Outcome<Children>)
      modifies client.http.client
      ensures Plans.Performed(Plans.GetChildren(client.View(), path, environment),
                              old(client.http.client.sent), client.http.client.sent,
                              reply, r, Plans.Decoded((e: ChildrenResponse) => ToChildren(e.payload)))
    {
      var env := ResolveEnvironment(environment, client.DefaultEnvironment);
      if env.Failure? {
        return Failure(env.error);
      }
      var response := GetRaw(Some(env.value), path, Some(map["viewchildren" := "true"]), reply);
      if response.Failure? {
        return Failure(response.error);
      }
      r := Success(ToChildren(response.value.payload));
    }

    method SetRaw(environment: Option<string>, path: Option<string>, value: Value, over: Option<string>, reply: Reply<()>)
      returns (r: Outcome<()>)
      modifies client.http.client
      ensures Plans.Performed(Plans.SetRaw(client.View(), environment, path, value, over),
                              old(client.http.client.sent), client.http.client.sent,
                              reply, r, Plans.Decoded((e: BaseResponse) => ()))
    {
      var ok := client.EnsureLoggedIn();
      if ok.Failure? {
        return Failure(ok.error);
      }
      var env := ResolveEnvironment(environment, client.DefaultEnvironment);
      if env.Failure? {
        return Failure(env.error);
      }
      var canonical := SyncSettingsInstance.SanitizePath(path);
      TemplatesFit();
      var location := Format(ValueTemplate, [env.value, canonical]);
      var response := client.http.PostWithParameters(value.ToPayload(), location, Some(GetOverride(over)), reply);
      if response.Failure? {
        return Failure(response.error);
      }
      r := Success(());
    }

    method Set(environment: Option<string>, path: Option<string>, value: Option<string>, over: Option<string>, reply: Reply<()>)
      returns (r: Outcome<()>)
      modifies client.http.client
      ensures Plans.Performed(Plans.Set(client.View(), environment, path, value, over),
                              old(client.http.client.sent), client.http.client.sent,
                              reply, r, Plans.Decoded((e: BaseResponse) => ()))
    {
      r := SetRaw(environment, path, ValueOf(value), over, reply);
    }

    method SetProtect(environment: Option<string>, path: Option<string>, protect: bool, over: Option<string>, reply: Reply<()>)
      returns (r: Outcome<()>)
      modifies client.http.client
      ensures Plans.Performed(Plans.SetProtect(client.View(), environment, path, protect, over),
                              old(client.http.client.sent), client.http.client.sent,
                              reply, r, Plans.Decoded((e: BaseResponse) => ()))
    {
      r := SetRaw(environment, path, ProtectOf(protect), over, reply);
    }

    method Delete(environment: Option<string>, path: Option<string>, over: Option<string>, reply: Reply<()>)
      returns (r: Outcome<()>)
      modifies client.http.client
      ensures Plans.Performed(Plans.Delete(client.View(), environment, path, over),
                              old(client.http.client.sent), client.http.client.sent,
                              reply, r, Plans.Decoded((e: BaseResponse) => ()))
    {
      var ok := client.EnsureLoggedIn();
      if ok.Failure? {
        return Failure(ok.error);
      }
      var env := ResolveEnvironment(environment, client.DefaultEnvironment);
      if env.Failure? {
        return Failure(env.error);
      }
      var canonical := SyncSettingsInstance.SanitizePath(path);
      TemplatesFit();
      var location := Format(ValueTemplate, [env.value, canonical]);
      var response := client.http.DeleteWithParameters(location, Some(GetOverride(over)), reply);
      if response.Failure? {
        return Failure(response.error);
      }
      r := Success(());
    }
  }

  /** `SyncUsers`: the user operations of a session. */
  class SyncUsers {
    const client: SyncSettingsInstance

    constructor(client: SyncSettingsInstance)
      ensures this.client == client
    {
      this.client := client;
    }

    method Get(userName: string, reply: Reply<map<string, int>>) returns (r: Outcome<UserInfo>)
      modifies client.http.client
      ensures Plans.Performed(Plans.GetUser(client.View(), userName),
                              old(client.http.client.sent), client.http.client.sent, reply, r,
                              (e: RightsResponse, info: UserInfo) => DescribesEnvironments(info, e.payload))
    {
      var ok := client.EnsureLoggedIn();
      if ok.Failure? {
        return Failure(ok.error);
      }
      TemplatesFit();
      var response := client.http.Get(UserInfoTemplate, [userName], reply);
      if response.Failure? {
        return Failure(response.error);
      }
      var kvs := Enumerate(response.value.payload);
      r := Success(ToUserInfo(kvs));
    }

    method CreateUser(userName: string, password: Option<string>, md5: string -> Digest, reply: Reply<()>)
      returns (r: Outcome<()>)
      modifies client.http.client
      ensures Plans.Performed(Plans.CreateUser(client.View(), md5, userName, password),
                              old(client.http.client.sent), client.http.client.sent,
                              reply, r, Plans.Decoded((e: BaseResponse) => ()))
    {
      if userName == client.User {
        return Failure(InvalidRequest);
      }
      var ok := client.EnsureLoggedIn();
      if ok.Failure? {
        return Failure(ok.error);
      }
      var hash := if IsNullOrEmpty(password) then "" else Hash(md5, password);
      TemplatesFit();
      var response := client.http.Post(Plans.PasshashBody(hash), UserTemplate, [userName], reply);
      if response.Failure? {
        return Failure(response.error);
      }
      r := Success(());
    }

    method DeleteUser(userName: string, reply: Reply<()>) returns (r: Outcome<()>)
      modifies client.http.client
      ensures Plans.Performed(Plans.DeleteUser(client.View(), userName),
                              old(client.http.client.sent), client.http.client.sent,
                              reply, r, Plans.Decoded((e: BaseResponse) => ()))
    {
      var ok := client.EnsureLoggedIn();
      if ok.Failure? {
        return Failure(ok.error);
      }
      TemplatesFit();
      var response := client.http.DeleteFormat(UserTemplate, [userName], reply);
      if response.Failure? {
        return Failure(response.error);
      }
      r := Success(());
    }

    method Grant(userName: string, environment: Option<string>, rights: Rights, reply: Reply<()>) returns (r: Outcome<()>)
      modifies client.http.client
      ensures Plans.Performed(Plans.Grant(client.View(), userName, environment, rights),
                              old(client.http.client.sent), client.http.client.sent,
                              reply, r, Plans.Decoded((e: BaseResponse) => ()))
    {
      var ok := client.EnsureLoggedIn();
      if ok.Failure? {
        return Failure(ok.error);
      }
      var response := client.http.Post(Plans.GrantBody(userName, environment, rights), GrantTemplate, [], reply);
      if response.Failure? {
        return Failure(response.error);
      }
      r := Success(());
    }
  }

  /**
   * `SyncEnvironments`: the environment operations of a session, with a
   * `Default` of its own that `SetDefault` updates once the server accepted it.
   */
  class SyncEnvironments {
    const client: SyncSettingsInstance
    var Default: Option<string>

    constructor(client: SyncSettingsInstance, defaultEnvironment: Option<string>)
      ensures this.client == client && Default == defaultEnvironment
    {
      this.client := client;
      Default := defaultEnvironment;
    }

    /** The session's `DefaultEnvironment`, which value reads fall back on, is left as it was. */
    method SetDefault(defaultEnvironment: Option<string>, reply: Reply<()>) returns (r: Outcome<()>)
      modifies this, client.http.client
      ensures Plans.Performed(Plans.SetDefaultEnvironment(old(client.View()), defaultEnvironment),
                              old(client.http.client.sent), client.http.client.sent,
                              reply, r, Plans.Decoded((e: BaseResponse) => ()))
      ensures Default == if r.Success? then defaultEnvironment else old(Default)
      ensures client.DefaultEnvironment == old(client.DefaultEnvironment)
    {
      var ok := client.EnsureLoggedIn();
      if ok.Failure? {
        return Failure(ok.error);
      }
      TemplatesFit();
      var response := client.http.Post([Member("env", Text(defaultEnvironment))], DefaultEnvironmentTemplate, [client.User], reply);
      if response.Failure? {
        return Failure(response.error);
      }
      Default := defaultEnvironment;
      r := Success(());
    }

    method Get(envName: string, reply: Reply<map<string, int>>) returns (r: Outcome<EnvironmentInfo>)
      modifies client.http.client
      ensures Plans.Performed(Plans.GetEnvironment(client.View(), envName),
                              old(client.http.client.sent), client.http.client.sent, reply, r,
                              (e: RightsResponse, info: EnvironmentInfo) => DescribesUsers(info, e.payload))
    {
      var ok := client.EnsureLoggedIn();
      if ok.Failure? {
        return Failure(ok.error);
      }
      TemplatesFit();
      var response := client.http.Get(EnvironmentTemplate, [envName], reply);
      if response.Failure? {
        return Failure(response.error);
      }
      var kvs := Enumerate(response.value.payload);
      r := Success(ToEnvironmentInfo(kvs));
    }

    method Create(envName: string, reply: Reply<()>) returns (r: Outcome<()>)
      modifies client.http.client
      ensures Plans.Performed(Plans.CreateEnvironment(client.View(), envName),
                              old(client.http.client.sent), client.http.client.sent,
                              reply, r, Plans.Decoded((e: BaseResponse) => ()))
    {
      var ok := client.EnsureLoggedIn();
      if ok.Failure? {
        return Failure(ok.error);
      }
      TemplatesFit();
      var response := client.http.Post([], EnvironmentTemplate, [envName], reply);
      if response.Failure? {
        return Failure(response.error);
      }
      r := Success(());
    }
  }
}
