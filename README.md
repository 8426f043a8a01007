# City Hall .NET client: sessions and request resolution

City Hall is a configuration server. It stores values under
`env/{environment}/{path}/`, with optional per-user overrides and a history.
This project models the synchronous .NET client of that server.

**The newer session.** `SyncSettingsInstance` logs in when it is built, fetches the user's default environment and attaches one sub-client, `SyncValues` (its `Values` property). It then serves the user and environment operations itself and the value reads and writes through `Values`. `SyncUsers` and `SyncEnvironments` are classes of the same generation that nothing in the client constructs. They are modelled as stand-alone classes over a session, each built from the session it is given.

Each operation works in three steps:

1. It checks that the session is logged in and resolves the environment, path and override.
2. It builds one RestSharp request: a verb, a resource, an optional JSON body, and parameters.
3. It hands that request to the transport and turns the reply into a result or an `ErrorFromCityHallException`.

**The legacy session.** `SyncSettings` is the same client with its own copy of everything, and it differs in the details listed under "How the two generations differ" below.

**Transport.** The transport is abstract. `Client.RestClient` records every request it is handed in a ghost log `sent`, and it returns the reply the caller supplies (`Client.Reply`). That reply is no reply, or a status code with a body that may be null. An exception is an `Exceptions.Error` in a `Result`.

**How the model is organised.**

- For every operation, a pure function in `Plans` (newer session) or `LegacyPlans` (legacy session) says what the operation does before the transport: it raises (`Reject`) or it sends exactly one request (`Send`).
- Every request-sending operation of the session classes is proved against its plan by the predicate `Performed`. The predicate says three things:
  - the log grows by exactly that request, or not at all;
  - the result is the error raised before sending, or the executor's error on the reply;
  - otherwise, the decoded body.
- The other methods are proved against their own contracts instead:
  - the logins (`Login` in both generations, and the legacy `Get` with `ResolveCredentials`) against `Plans.AfterLogin`;
  - `Logout` against `Plans.LogoutPlan` and `Plans.AfterLogout`;
  - `EnsureLoggedIn` against the login flag;
  - the request builders of `SyncClient` and `SyncSettings` against the executor (`Client.Classify`, `LegacyPlans.LegacyClassify`);
  - both `SanitizePath` methods against `Resolution.CanonicalPath`.
- Lemmas about the plans of both generations prove the properties the client promises:
  - nothing is sent while logged out;
  - `CreateUser` refuses the session's own name;
  - every value operation addresses `env/{env}{canonical path}`;
  - the three override cases;
  - the hash format;
  - how the two generations differ.

Modules, in dependency order:

| module | contents |
|---|---|
| `Wrappers` | `Option`, `Result`, `IsNullOrEmpty` |
| `Wire` | verbs, JSON bodies, the recorded `Request` |
| `Exceptions` | the client's exceptions as an `Error` value |
| `Responses` | response envelopes |
| `Data` | the `Value` descriptor and the records handed to callers |
| `Password` | hex rendering of an MD5 digest |
| `Resolution` | path, environment and override resolution |
| `Client` | `SyncClient`: templates, request builders, the executor |
| `Plans` | what each newer operation sends, and their properties |
| `Synchronous` | `SyncSettingsInstance`, `SyncValues`, `SyncUsers`, `SyncEnvironments` |
| `LegacyPlans` | what each legacy operation sends, and how the generations differ |
| `Legacy` | `SyncSettings` and `Get` |

How the two generations differ:

| | `SyncSettingsInstance` | `SyncSettings` |
|---|---|---|
| parameters | query string | RestSharp's default type, in `Request.getOrPost` |
| override `""` | sends `override=` (asks for the default value) | sends nothing, the same as null |
| login hash | `Password.Hash(password)` | always `""` |
| password update | PUT | POST |
| hash letters | lower case, `""` for a null or empty password | upper case, no empty test |
| reply with a null body | `ErrorFromCityHallException` with the status code | null dereference |

Where the code and the client's interface documentation disagree, the model follows the code:

- `CityHall/IEnvironments.cs:12-16` documents `Default` as the environment that calls without one fall back on. `SyncEnvironments.SetDefault` updates only its own `Default` property (`SyncEnvironments.cs:19-24`). The session's `DefaultEnvironment`, which value reads do fall back on, keeps its old value.
- `CityHall/IAuthorization.cs:13` declares `Task<bool> Login`, which suggests that a refused login answers false. In the synchronous client a refused login never yields a session object. The constructor raises instead, so `Login` returns the error.

## Model

The scenario lemmas rest on `Plans.LocationOf`, which states the location in general. They also use two helpers that this table does not list, `Plans.DevLocations` and `Plans.QaLocations`, which evaluate the concrete locations.

| member | source | states |
|---|---|---|
| Responses.ValidityIsStatusOnly | CityHall/Responses/BaseResponse.cs:7 | a response is valid exactly when its status is "Ok". The message and the payload never matter, and null, "Failure" and "ok" are all invalid |
| Data.Value.ToPayload | CityHall/Data/Value.cs:32-51 | the body lists "value" only when the value is non-null, then "protect" only when it is set. Each key reads back the field it came from |
| Data.EmptyValue | CityHall/Data/Value.cs:8-12 | `new Value()` sends an empty object |
| Data.ValueOf | CityHall/Data/Value.cs:14-18 | `new Value(s)` carries `s`, possibly null, and no protect bit |
| Data.ProtectOf | CityHall/Data/Value.cs:20-24 | `new Value(b)` sends only `{"protect": b}` |
| Data.ValueAndProtectOf | CityHall/Data/Value.cs:26-30 | `new Value(s, b)` carries both fields |
| Data.PayloadRoundTrip | CityHall/Data/Value.cs:32-51 | the sparse body loses nothing: reading it back gives the descriptor it came from |
| Data.ConstructorPayloads | CityHall/Data/Value.cs:8-51 | the exact body each of the four constructors produces, including an empty string value and a null one |
| Data.ToHistory | CityHall/Synchronous/SyncValues.cs:35-50 | one entry per log entry, in server order, each the field-by-field copy |
| Data.HistoryIsLossless | CityHall/Synchronous/SyncValues.cs:35-50 | mapping the entries back gives exactly the server's log |
| Data.ToChildren | CityHall/Synchronous/SyncValues.cs:61-75 | the path, and one child per child response in order |
| Data.ChildrenAreLossless | CityHall/Synchronous/SyncValues.cs:61-75 | mapping the children back gives exactly the server's path and children |
| Data.Enumerate | CityHall/Synchronous/SyncSettingsInstance.cs:104 | enumerating a dictionary lists every key exactly once with its value, and nothing else |
| Data.ToEnvironmentInfo | CityHall/Synchronous/SyncSettingsInstance.cs:104 | one `EnvironmentRights` per enumerated pair, in the same order |
| Data.ToUserInfo | CityHall/Synchronous/SyncSettingsInstance.cs:117 | one `UserRights` per enumerated pair, in the same order |
| Password.X2 | CityHall/Synchronous/Password.cs:21 | a byte prints as two upper-case hex digits |
| Password.LowerHex | CityHall/Synchronous/Password.cs:21 | n bytes print as 2n lower-case hex digits |
| Password.UpperHex | CityHall/Synchronous/SyncSettings.cs:363 | n bytes print as 2n upper-case hex digits |
| Password.LowerHexRoundTrip | CityHall/Synchronous/Password.cs:21 | lower-case hex reads back to the bytes it renders |
| Password.UpperHexRoundTrip | CityHall/Synchronous/SyncSettings.cs:363 | upper-case hex reads back to the bytes it renders |
| Password.LowerHexIsLoweredUpperHex | CityHall/Synchronous/Password.cs:21 | rendering with "X2" and then lowering the case is lower-case hex |
| Password.Hash | CityHall/Synchronous/Password.cs:12-22 | a null or empty password hashes to ""; any other hashes to 32 lower-case hex digits |
| Password.HashIsDigest | CityHall/Synchronous/Password.cs:12-22 | the hash of a non-empty password reads back to its MD5 digest |
| Password.HashDiffersFromPassword | CityHall/Synchronous/Password.cs:12-22 | the hash never equals a non-empty password that is not itself 32 lower-case hex digits |
| Resolution.CanonicalPath | CityHall/Synchronous/SyncSettingsInstance.cs:175-200 | the result begins and ends with '/'. Null or "" gives "/", and an already wrapped path comes back unchanged. Otherwise the path is kept whole, with only the missing slashes added |
| Resolution.CanonicalPathIdempotent | CityHall/Synchronous/SyncSettingsInstance.cs:175-200 | sanitising a sanitised path changes nothing |
| Resolution.ResolveEnvironment | CityHall/Synchronous/SyncSettingsInstance.cs:156-163 | a non-empty explicit environment wins, then a non-empty default; with neither, InvalidRequest |
| Resolution.ResolvedEnvironmentIsNonEmpty | CityHall/Synchronous/SyncSettingsInstance.cs:156-163 | a resolved environment is never empty. An explicit one ignores the default, and resolution fails exactly when both are null or empty |
| Resolution.GetOverride | CityHall/Synchronous/SyncSettingsInstance.cs:210-215 | the "override" parameter is present exactly when an override (even "") is given, with that value, and it is the only possible key |
| Resolution.GetOverrideIsInjective | CityHall/Synchronous/SyncSettingsInstance.cs:202-215 | null, "" and each name give different parameters, in both directions |
| Resolution.GetOverrideCases | CityHall/Synchronous/SyncSettingsInstance.cs:202-215 | null asks for the user's value, "" for the default value, and a name for that override |
| Client.TemplateResources | CityHall/Synchronous/SyncSettingsInstance.cs:100-154 | each resource template, filled in, is the documented path: `auth/`, `auth/grant/`, `auth/user/{name}/default/`, `auth/env/{name}/`, `auth/user/{name}`, `auth/user/{name}/`, `env/{env}{path}` |
| Client.CollectListedArgs | CityHall/Synchronous/SyncClient.cs:15-21 | parameters that list a dictionary once per key collect back to that dictionary, and to nothing of the other parameter type |
| Client.AddParameters | CityHall/Synchronous/SyncClient.cs:15-21 | keeps the existing parameters. Then it adds one parameter of the given type per dictionary entry, every key once with its value; a null dictionary adds nothing |
| Client.Classify | CityHall/Synchronous/SyncClient.cs:38-59 | success exactly when there is a reply with a body whose status is "Ok", and the body comes back unchanged. Otherwise the error names the verb and resource, the status code, or the server's message |
| Client.ClassifyIgnoresPayload | CityHall/Synchronous/SyncClient.cs:53-56 | whether a reply succeeds depends on its envelope alone; a refused reply raises with the server's message |
| Client.SyncClient.constructor | CityHall/Synchronous/SyncClient.cs:29-34 | the client keeps the transport it is given |
| Client.SyncClient.Execute | CityHall/Synchronous/SyncClient.cs:38-59 | the request is handed to the transport once, and the result is the executor's verdict on the reply |
| Client.SyncClient.PostWithParameters | CityHall/Synchronous/SyncClient.cs:67-74 | sends one POST to `location` with the body and exactly `args` as query parameters |
| Client.SyncClient.Post | CityHall/Synchronous/SyncClient.cs:61-65 | sends one POST to the filled-in template with the body and no parameters |
| Client.SyncClient.GetWithParameters | CityHall/Synchronous/SyncClient.cs:82-88 | sends one GET with exactly `args` as query parameters |
| Client.SyncClient.Get | CityHall/Synchronous/SyncClient.cs:76-80 | sends one GET to the filled-in template |
| Client.SyncClient.DeleteWithParameters | CityHall/Synchronous/SyncClient.cs:95-100 | sends one DELETE with exactly `args` as query parameters |
| Client.SyncClient.DeleteFormat | CityHall/Synchronous/SyncClient.cs:90-93 | sends one DELETE to the filled-in template |
| Client.SyncClient.Put | CityHall/Synchronous/SyncClient.cs:102-108 | sends one PUT to the filled-in template with the body |
| Plans.AfterLogin | CityHall/Synchronous/SyncSettingsInstance.cs:38-58 | a login leaves the session logged in as the user. The default is the fetched one, or null when the fetch raised |
| Plans.LogoutPlan | CityHall/Synchronous/SyncSettingsInstance.cs:88-98 | a logout sends something exactly when the session is logged in, and then only a DELETE of `auth/` with no body and no parameters |
| Plans.AfterLogout | CityHall/Synchronous/SyncSettingsInstance.cs:88-98 | the session stays logged in exactly when it was and the DELETE raised; user and default never change |
| Plans.LogoutIsIdempotent | CityHall/Synchronous/SyncSettingsInstance.cs:88-98 | after a successful logout a second logout sends nothing and changes nothing |
| Plans.PassHashIsHash | CityHall/Synchronous/SyncSettingsInstance.cs:133 | the hash sent for a new or updated password, with its own test for a null or empty password, is exactly `Password.Hash`: that test is redundant |
| Plans.LoggedOutSendsNothing | CityHall/Synchronous/SyncSettingsInstance.cs:67-154 | logged out, every operation raises without sending. The error is NotLoggedIn, except that `CreateUser` with the session's own name gives InvalidRequest, and so does a read whose environment cannot be resolved, since it is resolved before the login check |
| Plans.ValueOperationsShareLocation | CityHall/Synchronous/SyncValues.cs:17-100 | logged in with a resolvable environment, every value operation addresses `env/{env}{canonical path}`. Reads carry their parameters and writes carry only the override |
| Plans.HistoryArgsHold | CityHall/Synchronous/SyncValues.cs:32-34 | a history read always sends `viewhistory=true`, plus the override exactly when one is given |
| Plans.SetBodies | CityHall/Synchronous/SyncValues.cs:85-93 | `Set` sends only the value (an empty object for null) and `SetProtect` only the flag |
| Plans.UserRequests | CityHall/Synchronous/SyncSettingsInstance.cs:125-148 | the verb, resource and body of each user operation, including the PUT for the own password and the empty hash for an empty password |
| Plans.EnvironmentRequests | CityHall/Synchronous/SyncSettingsInstance.cs:82-154 | logged in, `Grant` POSTs `auth/grant/` with the environment, the user and the integer rights. `GetEnvironment` GETs `auth/env/{name}/`, and `CreateEnvironment` POSTs an empty object there. `SetDefaultEnvironment` POSTs `{env}` to `auth/user/{user}/default/` |
| Plans.CreateUserRefusesSelf | CityHall/Synchronous/SyncSettingsInstance.cs:127-130 | creating the session's own user is refused in every session state |
| Plans.LocationOf | CityHall/Synchronous/SyncValues.cs:26 | the value location is `env/`, the environment, then the canonical path |
| Plans.ReadAt | CityHall/Synchronous/SyncValues.cs:22-28 | a logged-in read sends one GET to the resolved location with its parameters |
| Plans.WriteAt | CityHall/Synchronous/SyncValues.cs:78-100 | a logged-in write sends its verb and body to the resolved location with only the override |
| Plans.ReadScenarios | CityHall/Synchronous/SyncValues.cs:17-76 | `GetValue("value1")` through default "dev" reads `env/dev/value1/`; `GetChildren` of the root reads `env/dev/` with `viewchildren=true` |
| Plans.DeleteScenario | CityHall/Synchronous/SyncValues.cs:95-100 | deleting "/value1/" in "qa" with override "cityhall" deletes `env/qa/value1/?override=cityhall` |
| Plans.SetProtectScenario | CityHall/Synchronous/SyncValues.cs:78-93 | an explicit "qa" wins over default "dev", and "value1/" gets its leading slash |
| Synchronous.SyncSettingsInstance.Connect | CityHall/Synchronous/SyncSettingsInstance.cs:33-36 | before the login the object is not logged in and holds the transport |
| Synchronous.SyncSettingsInstance.Login | CityHall/Synchronous/SyncSettingsInstance.cs:33-59 | sends the login POST with the hashed password. A refused login raises its error and sends nothing more. Otherwise it fetches the default and yields a fresh session in the `AfterLogin` state, with values sub-client attached |
| Synchronous.SyncSettingsInstance.EnsureLoggedIn | CityHall/Synchronous/SyncSettingsInstance.cs:67-73 | succeeds exactly when logged in, otherwise NotLoggedIn |
| Synchronous.SyncSettingsInstance.Logout | CityHall/Synchronous/SyncSettingsInstance.cs:88-98 | sends what `LogoutPlan` says and reaches the `AfterLogout` state; a raised DELETE leaves the session logged in |
| Synchronous.SyncSettingsInstance.SetDefaultEnvironment | CityHall/Synchronous/SyncSettingsInstance.cs:82-86 | performs `Plans.SetDefaultEnvironment`; the session's own default is unchanged |
| Synchronous.SyncSettingsInstance.GetEnvironment | CityHall/Synchronous/SyncSettingsInstance.cs:100-105 | performs `Plans.GetEnvironment`; the result lists every user of the reply with its rights, once each |
| Synchronous.SyncSettingsInstance.CreateEnvironment | CityHall/Synchronous/SyncSettingsInstance.cs:107-111 | performs `Plans.CreateEnvironment` |
| Synchronous.SyncSettingsInstance.GetUserInfo | CityHall/Synchronous/SyncSettingsInstance.cs:113-118 | performs `Plans.GetUser`; the result lists every environment of the reply with its rights, once each |
| Synchronous.SyncSettingsInstance.CreateUser | CityHall/Synchronous/SyncSettingsInstance.cs:125-135 | performs `Plans.CreateUser` |
| Synchronous.SyncSettingsInstance.UpdatePassword | CityHall/Synchronous/SyncSettingsInstance.cs:137-142 | performs `Plans.UpdatePassword` |
| Synchronous.SyncSettingsInstance.DeleteUser | CityHall/Synchronous/SyncSettingsInstance.cs:144-148 | performs `Plans.DeleteUser` |
| Synchronous.SyncSettingsInstance.Grant | CityHall/Synchronous/SyncSettingsInstance.cs:150-154 | performs `Plans.Grant` |
| Synchronous.SyncSettingsInstance.GetValue | CityHall/Synchronous/SyncSettingsInstance.cs:165-168 | performs `Plans.GetValue` through the values sub-client and returns the value |
| Synchronous.SyncSettingsInstance.SanitizePath | CityHall/Synchronous/SyncSettingsInstance.cs:175-200 | the string-builder version computes exactly `CanonicalPath` |
| Synchronous.SyncValues.constructor | CityHall/Synchronous/SyncValues.cs:10-13 | the sub-client keeps its session |
| Synchronous.SyncValues.GetValue | CityHall/Synchronous/SyncValues.cs:17-20 | performs `Plans.GetValue` and returns the value of the reply |
| Synchronous.SyncValues.GetRaw | CityHall/Synchronous/SyncValues.cs:22-28 | performs `Plans.GetRaw` and returns the whole response |
| Synchronous.SyncValues.GetHistory | CityHall/Synchronous/SyncValues.cs:30-51 | performs `Plans.GetHistory` and returns `ToHistory` of the reply |
| Synchronous.SyncValues.GetChildren | CityHall/Synchronous/SyncValues.cs:53-76 | performs `Plans.GetChildren` and returns `ToChildren` of the reply |
| Synchronous.SyncValues.SetRaw | CityHall/Synchronous/SyncValues.cs:78-83 | performs `Plans.SetRaw` |
| Synchronous.SyncValues.Set | CityHall/Synchronous/SyncValues.cs:85-88 | performs `Plans.Set` |
| Synchronous.SyncValues.SetProtect | CityHall/Synchronous/SyncValues.cs:90-93 | performs `Plans.SetProtect` |
| Synchronous.SyncValues.Delete | CityHall/Synchronous/SyncValues.cs:95-100 | performs `Plans.Delete` |
| Synchronous.SyncUsers.constructor | CityHall/Synchronous/SyncUsers.cs:14-17 | the sub-client keeps its session |
| Synchronous.SyncUsers.Get | CityHall/Synchronous/SyncUsers.cs:21-26 | performs `Plans.GetUser`; every environment of the reply listed once with its rights |
| Synchronous.SyncUsers.CreateUser | CityHall/Synchronous/SyncUsers.cs:28-38 | performs `Plans.CreateUser` |
| Synchronous.SyncUsers.DeleteUser | CityHall/Synchronous/SyncUsers.cs:40-44 | performs `Plans.DeleteUser` |
| Synchronous.SyncUsers.Grant | CityHall/Synchronous/SyncUsers.cs:46-50 | performs `Plans.Grant` |
| Synchronous.SyncEnvironments.constructor | CityHall/Synchronous/SyncEnvironments.cs:9-13 | the sub-client keeps its session and starts with the given default |
| Synchronous.SyncEnvironments.SetDefault | CityHall/Synchronous/SyncEnvironments.cs:19-24 | performs `Plans.SetDefaultEnvironment`. Its own `Default` changes exactly when the POST succeeded, and the session's `DefaultEnvironment` never does |
| Synchronous.SyncEnvironments.Get | CityHall/Synchronous/SyncEnvironments.cs:26-31 | performs `Plans.GetEnvironment`; every user of the reply listed once with its rights |
| Synchronous.SyncEnvironments.Create | CityHall/Synchronous/SyncEnvironments.cs:33-37 | performs `Plans.CreateEnvironment` |
| LegacyPlans.LegacyClassify | CityHall/Synchronous/SyncSettings.cs:69-85 | success exactly when there is a reply with an "Ok" body, returned unchanged. No reply names the verb and resource, a null body is a null dereference, and a refused body raises with the server's message |
| LegacyPlans.ExecutorsDifferOnlyOnMissingBody | CityHall/Synchronous/SyncSettings.cs:72-84 | the two executors agree on every reply except one without a body |
| LegacyPlans.GetOverride | CityHall/Synchronous/SyncSettings.cs:241-246 | the "override" parameter is present exactly when the override is neither null nor "" |
| LegacyPlans.Hash | CityHall/Synchronous/SyncSettings.cs:359-364 | 32 upper-case hex digits that read back to the digest, with no special case for "" |
| LegacyPlans.HashGenerations | CityHall/Synchronous/SyncSettings.cs:359-364 | lowering the legacy hash gives `Password.Hash`; both carry the same digest |
| LegacyPlans.LoggedOutSendsNothing | CityHall/Synchronous/SyncSettings.cs:130-318 | logged out, every legacy operation raises without sending. The error is NotLoggedIn, except that `CreateUser` with the session's own name gives InvalidRequest, and so does a read whose environment cannot be resolved, since it is resolved before the login check |
| LegacyPlans.CreateUserRefusesSelf | CityHall/Synchronous/SyncSettings.cs:183-191 | the legacy `CreateUser` refuses the session's own name in every session state, before the login check |
| LegacyPlans.UserRequests | CityHall/Synchronous/SyncSettings.cs:183-210 | logged in, `CreateUser` and `UpdatePassword` both POST `auth/user/{name}/` with the hash. The hash is "" exactly for a null or empty password; otherwise it is 32 upper-case hex digits that read back to the digest |
| LegacyPlans.ValueOperationsShareLocation | CityHall/Synchronous/SyncSettings.cs:224-318 | logged in with a resolvable environment, every legacy value operation addresses `env/{env}{canonical path}`, the newer session's resource. Its arguments are default-type parameters, and writes carry only the legacy override, which agrees with the newer one for every override but "" |
| LegacyPlans.EmptyPasswordGenerations | CityHall/Synchronous/SyncSettings.cs:193-210 | for a null or empty password both generations send an empty hash to the same resource, the legacy one by POST and the newer one by PUT |
| LegacyPlans.LoginGenerations | CityHall/Synchronous/SyncSettings.cs:41 | the legacy login always sends an empty hash, so it equals the newer login exactly when the password is null or empty |
| LegacyPlans.EmptyOverrideGenerations | CityHall/Synchronous/SyncSettings.cs:241-250 | a legacy override of "" reads like no override, where the newer session sends `override=` |
| LegacyPlans.ParameterPlacement | CityHall/Synchronous/SyncSettings.cs:17-26 | for any other override both sessions read the same resource with the same parameters, in the query string in the newer and as default-type parameters in the legacy |
| LegacyPlans.PasswordGenerations | CityHall/Synchronous/SyncSettings.cs:193-210 | the legacy update POSTs the upper-case hash where the newer PUTs the lower-case one, to the same resource |
| Legacy.SyncSettings.Connect | CityHall/Synchronous/SyncSettings.cs:35-39 | before the login the object is not logged in and holds the transport |
| Legacy.SyncSettings.ResolveCredentials | CityHall/Synchronous/SyncSettings.cs:328-355 | the configuration section is needed only when no url is given, and a missing one raises MissingConfig. Its user and password are used only when no user is given either. Without a user, the machine name is used with an empty password, and a null password becomes "" |
| Legacy.SyncSettings.Login | CityHall/Synchronous/SyncSettings.cs:35-61 | sends the login POST with an empty hash. A refused login raises its error; otherwise it fetches the default and yields a fresh session in the `AfterLogin` state |
| Legacy.SyncSettings.Get | CityHall/Synchronous/SyncSettings.cs:328-357 | a missing configuration raises before anything is sent. Otherwise it logs in as the resolved user: the given user; without one, the machine name when a url is given, else the configuration's user or, when that is empty, the machine name. A refused login returns its error after the one login request; otherwise it sends the login and the default fetch and yields a fresh session in the `AfterLogin` state for that user |
| Legacy.SyncSettings.Execute | CityHall/Synchronous/SyncSettings.cs:69-85 | the request is handed to the transport once, and the result is `LegacyClassify` of the reply |
| Legacy.SyncSettings.PostWithParameters | CityHall/Synchronous/SyncSettings.cs:93-100 | sends one POST with the body and exactly `args` as default-type parameters |
| Legacy.SyncSettings.Post | CityHall/Synchronous/SyncSettings.cs:87-91 | sends one POST to the filled-in template with the body |
| Legacy.SyncSettings.GetWithParameters | CityHall/Synchronous/SyncSettings.cs:108-114 | sends one GET with exactly `args` as default-type parameters |
| Legacy.SyncSettings.GetFormat | CityHall/Synchronous/SyncSettings.cs:102-106 | sends one GET to the filled-in template |
| Legacy.SyncSettings.DeleteWithParameters | CityHall/Synchronous/SyncSettings.cs:121-126 | sends one DELETE with exactly `args` as default-type parameters |
| Legacy.SyncSettings.DeleteFormat | CityHall/Synchronous/SyncSettings.cs:116-119 | sends one DELETE to the filled-in template |
| Legacy.SyncSettings.EnsureLoggedIn | CityHall/Synchronous/SyncSettings.cs:130-136 | succeeds exactly when logged in, otherwise NotLoggedIn |
| Legacy.SyncSettings.SetDefaultEnvironment | CityHall/Synchronous/SyncSettings.cs:145-149 | performs `Plans.SetDefaultEnvironment` with the legacy executor |
| Legacy.SyncSettings.Logout | CityHall/Synchronous/SyncSettings.cs:151-161 | sends what `LogoutPlan` says and reaches the `AfterLogout` state |
| Legacy.SyncSettings.GetEnvironment | CityHall/Synchronous/SyncSettings.cs:163-168 | performs `Plans.GetEnvironment`; every user listed once with its rights |
| Legacy.SyncSettings.CreateEnvironment | CityHall/Synchronous/SyncSettings.cs:170-174 | performs `Plans.CreateEnvironment` |
| Legacy.SyncSettings.GetUserInfo | CityHall/Synchronous/SyncSettings.cs:176-181 | performs `Plans.GetUser`; every environment listed once with its rights |
| Legacy.SyncSettings.CreateUser | CityHall/Synchronous/SyncSettings.cs:183-191 | performs `LegacyPlans.CreateUser`: the self-check, then `SetPassword` |
| Legacy.SyncSettings.UpdatePassword | CityHall/Synchronous/SyncSettings.cs:193-196 | performs `LegacyPlans.UpdatePassword`: `SetPassword` on the own user |
| Legacy.SyncSettings.SetPassword | CityHall/Synchronous/SyncSettings.cs:205-210 | performs `LegacyPlans.SetPassword`: a POST of the upper-case hash, "" for a null or empty password |
| Legacy.SyncSettings.DeleteUser | CityHall/Synchronous/SyncSettings.cs:212-216 | performs `Plans.DeleteUser` |
| Legacy.SyncSettings.Grant | CityHall/Synchronous/SyncSettings.cs:218-222 | performs `Plans.Grant` |
| Legacy.SyncSettings.GetRaw | CityHall/Synchronous/SyncSettings.cs:224-230 | performs `LegacyPlans.GetRaw` and returns the whole response |
| Legacy.SyncSettings.GetValue | CityHall/Synchronous/SyncSettings.cs:248-251 | performs `LegacyPlans.GetValue` and returns the value |
| Legacy.SyncSettings.GetChildren | CityHall/Synchronous/SyncSettings.cs:253-271 | performs `LegacyPlans.GetChildren` and returns `ToChildren` of the reply |
| Legacy.SyncSettings.GetHistory | CityHall/Synchronous/SyncSettings.cs:273-294 | performs `LegacyPlans.GetHistory` and returns `ToHistory` of the reply |
| Legacy.SyncSettings.SetRaw | CityHall/Synchronous/SyncSettings.cs:296-301 | performs `LegacyPlans.SetRaw` |
| Legacy.SyncSettings.Set | CityHall/Synchronous/SyncSettings.cs:303-306 | performs `LegacyPlans.Set` |
| Legacy.SyncSettings.SetProtect | CityHall/Synchronous/SyncSettings.cs:308-311 | performs `LegacyPlans.SetProtect` |
| Legacy.SyncSettings.Delete | CityHall/Synchronous/SyncSettings.cs:313-318 | performs `LegacyPlans.Delete` |
| Legacy.SyncSettings.SanitizePath | CityHall/Synchronous/SyncSettings.cs:366-391 | the legacy copy also computes exactly `CanonicalPath` |

## Left out

- The HTTP transport, cookies and `BaseUrl` are abstract. The transport records each request and returns a reply that the caller supplies. A url is never parsed, and the `UrlMissingOrInvalidException` path is not modelled.
- MD5 and the ASCII encoding of the password are the parameter `md5`, any function yielding 16 bytes.
- Locking (`syncObject`, `lock (this.client)`) and concurrency are not modelled: every operation runs alone.
- `AsynchronousSettings` is not modelled. In both generations it checks the login and then raises `NotImplementedException`.
- Finding the configuration file and the Ninject registration are not modelled. `Legacy.SyncSettings.ResolveCredentials` takes the configuration section and the machine name as parameters.
- The interfaces (`ISyncSettings`, `ISyncValues`, `ISettings`, ...) and the stub `Settings` classes are not modelled.
- The text of exception messages is not modelled; an error keeps only its kind and the data it is built from (verb and resource, status code, server message).
- `EndsWith("/")` is modelled as a test of the last character. Its culture-sensitive comparison is not modelled.
- A valid response whose history, children or rights collection is null is not modelled. The C# code would dereference null there; the model takes the collection as always present.
- The enumeration order of a `Dictionary` is left open: `Data.Enumerate` promises every pair once, in some order.
- `Rights` is an unconstrained integer. Only `ReadProtected = 2` has a name; the other enumeration members are not modelled.
- Parameters with the same name collapse into one map entry, the last one winning. RestSharp would send both; the client never adds a name twice.
- Data.Enumerate: it picks keys in an unspecified order rather than the dictionary's own.
- Password.HashDiffersFromPassword: it does not cover a password that is itself 32 lower-case hex digits, which could be a fixed point of the hash.
- LegacyPlans.Hash: it takes a non-null string, because the C# method raises on null and is only called with a non-empty password.
- Null names and a null `Value` are not modelled. The model takes `string` and `Value` parameters, which cannot be null. It therefore does not capture three behaviours of the C# code:
  - a null user or environment name passed to `CreateUser`, `DeleteUser`, `GetUserInfo`, `GetEnvironment`, `CreateEnvironment` or `Grant` would be formatted into the resource or body as "";
  - a null user name would be compared with the session's own by `string.Equals`;
  - a null `Value` given to `SetRaw` (in both generations) raises a NullReferenceException at `value.ToPayload()`, after the login check and the environment resolution (`SyncValues.cs:78-83`, `SyncSettings.cs:296-301`).
- `SyncClient.cs:13-22` and `SyncSettings.cs:17-26` both declare `internal static class IRestRequestExt` in `CityHall.Synchronous`, so the two files do not compile together. Each generation is modelled with the `AddParameters` extension of its own file: query-string parameters for `SyncClient`, RestSharp's default parameter type for `SyncSettings`.
- Legacy.SyncSettings.Get: it states the user the session logs in as but not the password, because the legacy login never sends the password.
