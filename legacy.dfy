/**
 * The first session generation, the public `SyncSettings` class, with its own
 * request builders and executor over the transport. Each operation is proved
 * against its plan in `LegacyPlans` (or in `Plans` where both generations
 * send the same request).
 */
module Legacy {
  import opened Wrappers
  import opened Wire
  import opened Exceptions
  import opened Responses
  import opened Data
  import opened Client
  import Password
  import Resolution
  import Plans
  import opened LegacyPlans

  // ---------------------------------------------------------------------------
  // Where the connection settings come from

  /** The `cityhall` section of the application configuration. */
  datatype ConfigSection = ConfigSection(url: Option<string>, user: Option<string>, password: Option<string>)

  /** The arguments `Get` finally passes to the constructor. */
  datatype Credentials = Credentials(url: Option<string>, user: string, password: string)

  /** `SyncSettings`: the legacy session, with its own executor over the transport `client`. */
  class SyncSettings {
    const client: RestClient
    var LoggedIn: bool
    var DefaultEnvironment: Option<string>
    var User: string

    function View(): Plans.Session
      reads this
    {
      Plans.Session(LoggedIn, User, DefaultEnvironment)
    }

    constructor Connect(transport: RestClient)
      ensures client == transport
      ensures !LoggedIn && User == "" && DefaultEnvironment.None?
    {
      client := transport;
      LoggedIn := false;
      User := "";
      DefaultEnvironment := None;
    }

    /**
     * The arguments `Get` settles on. The configuration is read only when no
     * url is given, and its user and password only when no user is given
     * either; without a user the machine name is used with an empty password.
     */
    static method ResolveCredentials(url: Option<string>, user: Option<string>, password: Option<string>,
                                     config: Option<ConfigSection>, machineName: string)
      returns (r: Outcome<Credentials>)
      ensures IsNullOrEmpty(url) && config.None? <==> r == Failure(MissingConfig)
      ensures r.Failure? ==> r == Failure(MissingConfig)
      ensures r.Success? ==> r.value.url == if IsNullOrEmpty(url) then config.value.url else url
      ensures r.Success? && !IsNullOrEmpty(user) ==> r.value.user == user.value && r.value.password == OrEmpty(password)
      ensures r.Success? && IsNullOrEmpty(user) && !IsNullOrEmpty(url) ==> r.value.user == machineName && r.value.password == ""
      ensures r.Success? && IsNullOrEmpty(user) && IsNullOrEmpty(url) ==>
        if IsNullOrEmpty(config.value.user) then r.value.user == machineName && r.value.password == ""
        else r.value.user == config.value.user.value && r.value.password == OrEmpty(config.value.password)
    {
      var url', user', password' := url, user, password;
      if IsNullOrEmpty(url') {
        if config.None? {
          return Failure(MissingConfig);
        }
        url' := config.value.url;
        if IsNullOrEmpty(user') {
          user' := config.value.user;
          password' := config.value.password;
        }
      }
      if IsNullOrEmpty(user') {
        user' := Some(machineName);
        password' := Some("");
      }
      password' := if IsNullOrEmpty(password') then Some("") else password';
      r := Success(Credentials(url', user'.value, password'.value));
    }

    /** The constructor: log in with an empty hash, then fetch the default environment. */
    static method Login(transport: RestClient, user: string, loginReply: Reply<()>, defaultReply: Reply<Option<string>>)
      returns (r: Outcome<SyncSettings>)
      modifies transport
      ensures var login := LoginRequest(user);
              var fetch := Plans.DefaultEnvironmentRequest(user);
              match LegacyClassify(login, loginReply)
              case Failure(e) => r == Failure(e) && transport.sent == old(transport.sent) + [login]
              case Success(_) =>
                && transport.sent == old(transport.sent) + [login, fetch]
                && r.Success? && fresh(r.value) && r.value.client == transport
                && r.value.View() == Plans.AfterLogin(user, LegacyClassify(fetch, defaultReply))
    {
      var session := new SyncSettings.Connect(transport);
      TemplatesFit();
      var login := session.Post(Plans.LoginBody(user, ""), AuthTemplate, [], loginReply);
      if login.Failure? {
        return Failure(login.error);
      }
      if login.value.IsValid() {
        var fetched := session.GetFormat(DefaultEnvironmentTemplate, [user], defaultReply);
        session.DefaultEnvironment := if fetched.Success? then fetched.value.payload else None;
        session.User := user;
        session.LoggedIn := true;
      }
      r := Success(session);
    }

    /** `Get`: settle the connection settings, then log in with them. */
    static method Get(url: Option<string>, user: Option<string>, password: Option<string>,
                      config: Option<ConfigSection>, machineName: string,
                      transport: RestClient, loginReply: Reply<()>, defaultReply: Reply<Option<string>>)
      returns (r: Outcome<SyncSettings>)
      modifies transport
      ensures IsNullOrEmpty(url) && config.None? ==> r == Failure(MissingConfig) && transport.sent == old(transport.sent)
      ensures r.Success? ==> fresh(r.value) && r.value.LoggedIn && r.value.client == transport
      ensures r.Success? && !IsNullOrEmpty(user) ==> r.value.User == user.value
      ensures r.Success? && IsNullOrEmpty(user) && !IsNullOrEmpty(url) ==> r.value.User == machineName
      ensures r.Success? && IsNullOrEmpty(user) && IsNullOrEmpty(url) ==>
                r.value.User == if IsNullOrEmpty(config.value.user) then machineName else config.value.user.value
      ensures !(IsNullOrEmpty(url) && config.None?) ==>
                var u := if !IsNullOrEmpty(user) then user.value
                         else if !IsNullOrEmpty(url) || IsNullOrEmpty(config.value.user) then machineName
                         else config.value.user.value;
                var login := LoginRequest(u);
                var fetch := Plans.DefaultEnvironmentRequest(u);
                match LegacyClassify(login, loginReply)
                case Failure(e) => r == Failure(e) && transport.sent == old(transport.sent) + [login]
                case Success(_) =>
                  && transport.sent == old(transport.sent) + [login, fetch]
                  && r.Success? && r.value.View() == Plans.AfterLogin(u, LegacyClassify(fetch, defaultReply))
    {
      var credentials := ResolveCredentials(url, user, password, config, machineName);
      if credentials.Failure? {
        return Failure(credentials.error);
      }
      r := Login(transport, credentials.value.user, loginReply, defaultReply);
    }

    // -- the request builders, with parameters of the default type

    method Execute<P>(request: RestRequest, reply: Reply<P>) returns (r: Outcome<Envelope<P>>)
      modifies client
      ensures client.sent == old(client.sent) + [request.Snapshot()]
      ensures r == LegacyClassify(request.Snapshot(), reply)
    {
      var response := client.Execute(request, reply);
      r := LegacyClassify(request.Snapshot(), response);
    }

    method PostWithParameters<P>(data: JsonObject, location: string, args: Option<map<string, string>>, reply: Reply<P>)
      returns (r: Outcome<Envelope<P>>)
      modifies client
      ensures var q := Request(POST, location, Some(data), map[], ArgsOrEmpty(args));
              client.sent == old(client.sent) + [q] && r == LegacyClassify(q, reply)
    {
      var request := new RestRequest(location, POST);
      request.AddBody(data);
      AddParameters(request, args, GetOrPost);
      CollectListedArgs(request.parameters, ArgsOrEmpty(args), GetOrPost, QueryString);
      r := Execute(request, reply);
    }

    method Post<P>(data: JsonObject, location: Template, args: seq<string>, reply: Reply<P>)
      returns (r: Outcome<Envelope<P>>)
      requires FitsArgs(location, |args|)
      modifies client
      ensures var q := Request(POST, Format(location, args), Some(data), map[], map[]);
              client.sent == old(client.sent) + [q] && r == LegacyClassify(q, reply)
    {
      r := PostWithParameters(data, Format(location, args), None, reply);
    }

    method GetWithParameters<P>(location: string, args: Option<map<string, string>>, reply: Reply<P>)
      returns (r: Outcome<Envelope<P>>)
      modifies client
      ensures var q := Request(GET, location, None, map[], ArgsOrEmpty(args));
              client.sent == old(client.sent) + [q] && r == LegacyClassify(q, reply)
    {
      var request := new RestRequest(location, GET);
      AddParameters(request, args, GetOrPost);
      CollectListedArgs(request.parameters, ArgsOrEmpty(args), GetOrPost, QueryString);
      r := Execute(request, reply);
    }

    /** The private `Get<T>(location, args)` builder. */
    method GetFormat<P>(location: Template, args: seq<string>, reply: Reply<P>)
      returns (r: Outcome<Envelope<P>>)
      requires FitsArgs(location, |args|)
      modifies client
      ensures var q := Request(GET, Format(location, args), None, map[], map[]);
              client.sent == old(client.sent) + [q] && r == LegacyClassify(q, reply)
    {
      r := GetWithParameters(Format(location, args), None, reply);
    }

    method DeleteWithParameters(location: string, args: Option<map<string, string>>, reply: Reply<()>)
      returns (r: Outcome<BaseResponse>)
      modifies client
      ensures var q := Request(DELETE, location, None, map[], ArgsOrEmpty(args));
              client.sent == old(client.sent) + [q] && r == LegacyClassify(q, reply)
    {
      var request := new RestRequest(location, DELETE);
      AddParameters(request, args, GetOrPost);
      CollectListedArgs(request.parameters, ArgsOrEmpty(args), GetOrPost, QueryString);
      r := Execute(request, reply);
    }

    method DeleteFormat(location: Template, args: seq<string>, reply: Reply<()>)
      returns (r: Outcome<BaseResponse>)
      requires FitsArgs(location, |args|)
      modifies client
      ensures var q := Request(DELETE, Format(location, args), None, map[], map[]);
              client.sent == old(client.sent) + [q] && r == LegacyClassify(q, reply)
    {
      r := DeleteWithParameters(Format(location, args), None, reply);
    }

    // -- the session operations

    function EnsureLoggedIn(): (r: Outcome<()>)
      reads this
      ensures r.Success? <==> LoggedIn
      ensures r.Failure? ==> r.error == NotLoggedIn
    {
      if !LoggedIn then Failure(NotLoggedIn) else Success(())
    }

    method SetDefaultEnvironment(defaultEnvironment: Option<string>, reply: Reply<()>) returns (r: Outcome<()>)
      modifies client
      ensures Performed(Plans.SetDefaultEnvironment(View(), defaultEnvironment), old(client.sent), client.sent,
                        reply, r, Plans.Decoded((e: BaseResponse) => ()))
    {
      var ok := EnsureLoggedIn();
      if ok.Failure? {
        return Failure(ok.error);
      }
      TemplatesFit();
      var response := Post([Member("env", Text(defaultEnvironment))], DefaultEnvironmentTemplate, [User], reply);
      if response.Failure? {
        return Failure(response.error);
      }
      r := Success(());
    }

    method Logout(reply: Reply<()>) returns (r: Outcome<()>)
      modifies this, client
      ensures User == old(User) && DefaultEnvironment == old(DefaultEnvironment)
      ensures match Plans.LogoutPlan(old(View()))
              case None => client.sent == old(client.sent) && r.Success? && View() == old(View())
              case Some(q) =>
                && client.sent == old(client.sent) + [q]
                && var deleted := LegacyClassify(q, reply);
                   && View() == Plans.AfterLogout(old(View()), deleted)
                   && (deleted.Failure? ==> r == Failure(deleted.error))
                   && (deleted.Success? ==> r.Success?)
    {
      if LoggedIn {
        var deleted := DeleteFormat(AuthTemplate, [], reply);
        if deleted.Failure? {
          return Failure(deleted.error);
        }
        LoggedIn := false;
      }
      r := Success(());
    }

    method GetEnvironment(envName: string, reply: Reply<map<string, int>>) returns (r: Outcome<EnvironmentInfo>)
      modifies client
      ensures Performed(Plans.GetEnvironment(View(), envName), old(client.sent), client.sent, reply, r,
                        (e: RightsResponse, info: EnvironmentInfo) => DescribesUsers(info, e.payload))
    {
      var ok := EnsureLoggedIn();
      if ok.Failure? {
        return Failure(ok.error);
      }
      TemplatesFit();
      var response := GetFormat(EnvironmentTemplate, [envName], reply);
      if response.Failure? {
        return Failure(response.error);
      }
      var kvs := Enumerate(response.value.payload);
      r := Success(ToEnvironmentInfo(kvs));
    }

    method CreateEnvironment(envName: string, reply: Reply<()>) returns (r: Outcome<()>)
      modifies client
      ensures Performed(Plans.CreateEnvironment(View(), envName), old(client.sent), client.sent,
                        reply, r, Plans.Decoded((e: BaseResponse) => ()))
    {
      var ok := EnsureLoggedIn();
      if ok.Failure? {
        return Failure(ok.error);
      }
      TemplatesFit();
      var response := Post([], EnvironmentTemplate, [envName], reply);
      if response.Failure? {
        return Failure(response.error);
      }
      r := Success(());
    }

    method GetUserInfo(userName: string, reply: Reply<map<string, int>>) returns (r: Outcome<UserInfo>)
      modifies client
      ensures Performed(Plans.GetUser(View(), userName), old(client.sent), client.sent, reply, r,
                        (e: RightsResponse, info: UserInfo) => DescribesEnvironments(info, e.payload))
    {
      var ok := EnsureLoggedIn();
      if ok.Failure? {
        return Failure(ok.error);
      }
      TemplatesFit();
      var response := GetFormat(UserInfoTemplate, [userName], reply);
      if response.Failure? {
        return Failure(response.error);
      }
      var kvs := Enumerate(response.value.payload);
      r := Success(ToUserInfo(kvs));
    }

    method CreateUser(userName: string, password: Option<string>, md5: string -> Password.Digest, reply: Reply<()>)
      returns (r: Outcome<()>)
      modifies client
      ensures Performed(LegacyPlans.CreateUser(View(), md5, userName, password), old(client.sent), client.sent,
                        reply, r, Plans.Decoded((e: BaseResponse) => ()))
    {
      if userName == User {
        return Failure(InvalidRequest);
      }
      r := SetPassword(userName, password, md5, reply);
    }

    method UpdatePassword(password: Option<string>, md5: string -> Password.Digest, reply: Reply<()>)
      returns (r: Outcome<()>)
      modifies client
      ensures Performed(LegacyPlans.UpdatePassword(View(), md5, password), old(client.sent), client.sent,
                        reply, r, Plans.Decoded((e: BaseResponse) => ()))
    {
      r := SetPassword(User, password, md5, reply);
    }

    method SetPassword(userName: string, password: Option<string>, md5: string -> Password.Digest, reply: Reply<()>)
      returns (r: Outcome<()>)
      modifies client
      ensures Performed(LegacyPlans.SetPassword(View(), md5, userName, password), old(client.sent), client.sent,
                        reply, r, Plans.Decoded((e: BaseResponse) => ()))
    {
      var ok := EnsureLoggedIn();
      if ok.Failure? {
        return Failure(ok.error);
      }
      var hash := if IsNullOrEmpty(password) then "" else Hash(md5, password.value);
      TemplatesFit();
      var response := Post(Plans.PasshashBody(hash), UserTemplate, [userName], reply);
      if response.Failure? {
        return Failure(response.error);
      }
      r := Success(());
    }

    method DeleteUser(userName: string, reply: Reply<()>) returns (r: Outcome<()>)
      modifies client
      ensures Performed(Plans.DeleteUser(View(), userName), old(client.sent), client.sent,
                        reply, r, Plans.Decoded((e: BaseResponse) => ()))
    {
      var ok := EnsureLoggedIn();
      if ok.Failure? {
        return Failure(ok.error);
      }
      TemplatesFit();
      var response := DeleteFormat(UserTemplate, [userName], reply);
      if response.Failure? {
        return Failure(response.error);
      }
      r := Success(());
    }

    method Grant(userName: string, environment: Option<string>, rights: Rights, reply: Reply<()>) returns (r: Outcome<()>)
      modifies client
      ensures Performed(Plans.Grant(View(), userName, environment, rights), old(client.sent), client.sent,
                        reply, r, Plans.Decoded((e: BaseResponse) => ()))
    {
      var ok := EnsureLoggedIn();
      if ok.Failure? {
        return Failure(ok.error);
      }
      var response := Post(Plans.GrantBody(userName, environment, rights), GrantTemplate, [], reply);
      if response.Failure? {
        return Failure(response.error);
      }
      r := Success(());
    }

    method GetRaw<P>(environment: Option<string>, path: Option<string>, args: Option<map<string, string>>, reply: Reply<P>)
      returns (r: Outcome<Envelope<P>>)
      modifies client
      ensures Performed(LegacyPlans.GetRaw(View(), environment, path, args), old(client.sent), client.sent,
                        reply, r, Plans.Decoded((e: Envelope<P>) => e))
    {
      var ok := EnsureLoggedIn();
      if ok.Failure? {
        return Failure(ok.error);
      }
      var canonical := SanitizePath(path);
      TemplatesFit();
      var location := Format(ValueTemplate, [OrEmpty(environment), canonical]);
      r := GetWithParameters(location, args, reply);
    }

    method GetValue(path: Option<string>, environment: Option<string>, over: Option<string>, reply: Reply<Option<string>>)
      returns (r: Outcome<Option<string>>)
      modifies client
      ensures Performed(LegacyPlans.GetValue(View(), path, environment, over), old(client.sent), client.sent,
                        reply, r, Plans.Decoded((e: ValueResponse) => e.payload))
    {
      var env := Resolution.ResolveEnvironment(environment, DefaultEnvironment);
      if env.Failure? {
        return Failure(env.error);
      }
      var response := GetRaw(Some(env.value), path, Some(GetOverride(over)), reply);
      if response.Failure? {
        return Failure(response.error);
      }
      r := Success(response.value.payload);
    }

    method GetChildren(path: Option<string>, environment: Option<string>, reply: Reply<ChildrenPayload>)
      returns (r: Outcome<Children>)
      modifies client
      ensures Performed(LegacyPlans.GetChildren(View(), path, environment), old(client.sent), client.sent,
                        reply, r, Plans.Decoded((e: ChildrenResponse) => ToChildren(e.payload)))
    {
      var env := Resolution.ResolveEnvironment(environment, DefaultEnvironment);
      if env.Failure? {
        return Failure(env.error);
      }
      var response := GetRaw(Some(env.value), path, Some(map["viewchildren" := "true"]), reply);
      if response.Failure? {
        return Failure(response.error);
      }
      r := Success(ToChildren(response.value.payload));
    }

    method GetHistory(path: Option<string>, environment: Option<string>, over: Option<string>, reply: Reply<seq<LogEntry>>)
      returns (r: Outcome<History>)
      modifies client
      ensures Performed(LegacyPlans.GetHistory(View(), path, environment, over), old(client.sent), client.sent,
                        reply, r, Plans.Decoded((e: HistoryResponse) => ToHistory(e.payload)))
    {
      var paramDict := GetOverride(over);
      paramDict := paramDict["viewhistory" := "true"];
      var env := Resolution.ResolveEnvironment(environment, DefaultEnvironment);
      if env.Failure? {
        return Failure(env.error);
      }
      var response := GetRaw(Some(env.value), path, Some(paramDict), reply);
      if response.Failure? {
        return Failure(response.error);
      }
      r := Success(ToHistory(response.value.payload));
    }

    method SetRaw(environment: Option<string>, path: Option<string>, value: Value, over: Option<string>, reply: Reply<()>)
      returns (r: Outcome<()>)
      modifies client
      ensures Performed(LegacyPlans.SetRaw(View(), environment, path, value, over), old(client.sent), client.sent,
                        reply, r, Plans.Decoded((e: BaseResponse) => ()))
    {
      var ok := EnsureLoggedIn();
      if ok.Failure? {
        return Failure(ok.error);
      }
      var env := Resolution.ResolveEnvironment(environment, DefaultEnvironment);
      if env.Failure? {
        return Failure(env.error);
      }
      var canonical := SanitizePath(path);
      TemplatesFit();
      var location := Format(ValueTemplate, [env.value, canonical]);
      var response := PostWithParameters(value.ToPayload(), location, Some(GetOverride(over)), reply);
      if response.Failure? {
        return Failure(response.error);
      }
      r := Success(());
    }

    method Set(environment: Option<string>, path: Option<string>, value: Option<string>, over: Option<string>, reply: Reply<()>)
      returns (r: Outcome<()>)
      modifies client
      ensures Performed(LegacyPlans.Set(View(), environment, path, value, over), old(client.sent), client.sent,
                        reply, r, Plans.Decoded((e: BaseResponse) => ()))
    {
      r := SetRaw(environment, path, ValueOf(value), over, reply);
    }

    method SetProtect(environment: Option<string>, path: Option<string>, protect: bool, over: Option<string>, reply: Reply<()>)
      returns (r: Outcome<()>)
      modifies client
      ensures Performed(LegacyPlans.SetProtect(View(), environment, path, protect, over), old(client.sent), client.sent,
                        reply, r, Plans.Decoded((e: BaseResponse) => ()))
    {
      r := SetRaw(environment, path, ProtectOf(protect), over, reply);
    }

    method Delete(environment: Option<string>, path: Option<string>, over: Option<string>, reply: Reply<()>)
      returns (r: Outcome<()>)
      modifies client
      ensures Performed(LegacyPlans.Delete(View(), environment, path, over), old(client.sent), client.sent,
                        reply, r, Plans.Decoded((e: BaseResponse) => ()))
    {
      var ok := EnsureLoggedIn();
      if ok.Failure? {
        return Failure(ok.error);
      }
      var env := Resolution.ResolveEnvironment(environment, DefaultEnvironment);
      if env.Failure? {
        return Failure(env.error);
      }
      var canonical := SanitizePath(path);
      TemplatesFit();
      var location := Format(ValueTemplate, [env.value, canonical]);
      var response := DeleteWithParameters(location, Some(GetOverride(over)), reply);
      if response.Failure? {
        return Failure(response.error);
      }
      r := Success(());
    }

    /** The legacy copy of the path canonicaliser. */
    static method SanitizePath(path: Option<string>) returns (r: string)
      ensures r == Resolution.CanonicalPath(path)
    {
      if IsNullOrEmpty(path) {
        return "/";
      }
      var p := path.value;
      var sb: string := "";
      var sbUsed := false;
      if p[0] != '/' {
        sbUsed := true;
        sb := sb + "/";
      }
      sb := sb + p;
      if p[|p| - 1] != '/' {
        sbUsed := true;
        sb := sb + "/";
      }
      r := if sbUsed then sb else p;
    }
  }
}
