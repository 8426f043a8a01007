/** The records the client hands to its callers, and the sparse `Value` descriptor. */
module Data {
  import opened Wrappers
  import opened Wire
  import opened Responses

  /**
   * `CityHall.Data.Value`: a sparse update of a value and/or its protect bit.
   * A field that is null is not sent.
   */
  datatype Value = Value(value: Option<string>, protect: Option<bool>) {

    /** `Value.ToPayload`: the anonymous object that is serialised as the request body. */
    function ToPayload(): (payload: JsonObject)
      ensures Keys(payload) ==
        (if value.Some? then ["value"] else []) + (if protect.Some? then ["protect"] else [])
      ensures Lookup(payload, "value") == (if value.Some? then Some(JString(value.value)) else None)
      ensures Lookup(payload, "protect") == (if protect.Some? then Some(JBool(protect.value)) else None)
    {
      var haveValue := value.Some?;
      var haveProtect := protect.Some?;
      if haveValue && haveProtect then
        [Member("value", JString(value.value)), Member("protect", JBool(protect.value))]
      else if haveValue && !haveProtect then
        [Member("value", JString(value.value))]
      else if !haveValue && haveProtect then
        [Member("protect", JBool(protect.value))]
      else
        []
    }
  }

  /** `new Value()` */
  function EmptyValue(): (v: Value)
    ensures v.ToPayload() == []
  {
    Value(None, None)
  }

  /** `new Value(string value)`; a null string leaves the value out. */
  function ValueOf(s: Option<string>): (v: Value)
    ensures v.value == s && v.protect.None?
  {
    Value(s, None)
  }

  /** `new Value(bool protect)` */
  function ProtectOf(b: bool): (v: Value)
    ensures v.ToPayload() == [Member("protect", JBool(b))]
  {
    Value(None, Some(b))
  }

  /** `new Value(string value, bool protect)` */
  function ValueAndProtectOf(s: Option<string>, b: bool): (v: Value)
    ensures v.value == s && v.protect == Some(b)
  {
    Value(s, Some(b))
  }

  /** Reads a payload back: a field is present exactly when its key is. */
  function FromPayload(payload: JsonObject): Value {
    var v := match Lookup(payload, "value") case Some(JString(s)) => Some(s) case _ => None;
    var p := match Lookup(payload, "protect") case Some(JBool(b)) => Some(b) case _ => None;
    Value(v, p)
  }

  /** The payload loses nothing: every descriptor can be read back from it. */
  lemma PayloadRoundTrip(v: Value)
    ensures FromPayload(v.ToPayload()) == v
  {
  }

  /** The four constructors and the payload each one produces. */
  lemma ConstructorPayloads(s: string, b: bool)
    ensures EmptyValue().ToPayload() == []
    ensures ValueOf(Some(s)).ToPayload() == [Member("value", JString(s))]
    ensures ValueOf(Some("")).ToPayload() == [Member("value", JString(""))]
    ensures ValueOf(None).ToPayload() == []
    ensures ProtectOf(b).ToPayload() == [Member("protect", JBool(b))]
    ensures ValueAndProtectOf(Some(s), b).ToPayload() ==
      [Member("value", JString(s)), Member("protect", JBool(b))]
  {
  }

  /** `CityHall.Data.Entry` */
  datatype Entry = Entry(
    id: int,
    name: Option<string>,
    value: Option<string>,
    author: Option<string>,
    dateTime: DateTime,
    active: bool,
    protect: bool,
    override: Option<string>)

  /** `CityHall.Data.History` */
  datatype History = History(entries: seq<Entry>)

  /** `CityHall.Data.Child` */
  datatype Child = Child(
    id: int,
    name: Option<string>,
    path: Option<string>,
    value: Option<string>,
    protect: bool,
    override: Option<string>)

  /** `CityHall.Data.Children` */
  datatype Children = Children(path: Option<string>, subChildren: seq<Child>)

  /**
   * `CityHall.Rights`, an integer enumeration whose values are sent and
   * received as they are; only `ReadProtected` has a known number.
   */
  type Rights = int
  const ReadProtected: Rights := 2

  datatype EnvironmentRights = EnvironmentRights(user: string, rights: Rights)
  datatype EnvironmentInfo = EnvironmentInfo(rights: seq<EnvironmentRights>)
  datatype UserRights = UserRights(environment: string, rights: Rights)
  datatype UserInfo = UserInfo(permissions: seq<UserRights>)

  /** The projection `h => new Entry { ... }` of `SyncValues.GetHistory`. */
  function ToEntry(h: LogEntry): Entry {
    Entry(h.id, h.name, h.value, h.author, h.datetime, h.active, h.protect, h.override)
  }

  /** The projection `c => new Child { ... }` of `SyncValues.GetChildren`. */
  function ToChild(c: ChildResponse): Child {
    Child(c.id, c.name, c.path, c.value, c.protect, c.override)
  }

  /** `response.History.Select(...).ToArray()` */
  function ToHistory(log: seq<LogEntry>): (h: History)
    ensures |h.entries| == |log|
    ensures forall i :: 0 <= i < |log| ==> h.entries[i] == ToEntry(log[i])
  {
    History(seq(|log|, i requires 0 <= i < |log| => ToEntry(log[i])))
  }

  /** `new Children { Path = response.path, SubChildren = response.children.Select(...) }` */
  function ToChildren(response: ChildrenPayload): (c: Children)
    ensures c.path == response.path
    ensures |c.subChildren| == |response.children|
    ensures forall i :: 0 <= i < |c.subChildren| ==> c.subChildren[i] == ToChild(response.children[i])
  {
    Children(response.path,
      seq(|response.children|, i requires 0 <= i < |response.children| => ToChild(response.children[i])))
  }

  /** The inverse projections: what each record field was copied from. */
  function AsLogEntry(e: Entry): LogEntry {
    LogEntry(e.active, e.override, e.id, e.value, e.dateTime, e.protect, e.name, e.author)
  }

  function AsChildResponse(c: Child): ChildResponse {
    ChildResponse(c.override, c.path, c.id, c.value, c.protect, c.name)
  }

  /** The history keeps every log entry, in server order, with every field unchanged. */
  lemma HistoryIsLossless(log: seq<LogEntry>)
    ensures seq(|ToHistory(log).entries|, i requires 0 <= i < |ToHistory(log).entries| =>
              AsLogEntry(ToHistory(log).entries[i])) == log
  {
  }

  /** The children keep every child, in server order, with every field unchanged. */
  lemma ChildrenAreLossless(response: ChildrenPayload)
    ensures ToChildren(response).path == response.path
    ensures seq(|ToChildren(response).subChildren|, i requires 0 <= i < |ToChildren(response).subChildren| =>
              AsChildResponse(ToChildren(response).subChildren[i])) == response.children
  {
  }

  /** The keys listed in `kvs`. */
  function Names(kvs: seq<(string, int)>): set<string> {
    if kvs == [] then {} else Names(kvs[..|kvs| - 1]) + {kvs[|kvs| - 1].0}
  }

  lemma {:induction false} NamesHold(kvs: seq<(string, int)>, i: int)
    requires 0 <= i < |kvs|
    ensures kvs[i].0 in Names(kvs)
  {
    if i < |kvs| - 1 {
      NamesHold(kvs[..|kvs| - 1], i);
    }
  }

  /** The key/value pairs of `m` as a list: every key exactly once, with its value. */
  ghost predicate ListsPairs(kvs: seq<(string, int)>, m: map<string, int>) {
    && (forall i :: 0 <= i < |kvs| ==> kvs[i].0 in m && m[kvs[i].0] == kvs[i].1)
    && (forall i, j :: 0 <= i < j < |kvs| ==> kvs[i].0 != kvs[j].0)
    && Names(kvs) == m.Keys
  }

  /**
   * Enumerates a dictionary, as `Select` over a `Dictionary<string, int>` does;
   * the enumeration order is the dictionary's and is left open.
   */
  method Enumerate(m: map<string, int>) returns (kvs: seq<(string, int)>)
    ensures ListsPairs(kvs, m)
    ensures |kvs| == |m|
  {
    kvs := [];
    var remaining := m.Keys;
    while remaining != {}
      invariant remaining <= m.Keys
      invariant forall i :: 0 <= i < |kvs| ==> kvs[i].0 in m && m[kvs[i].0] == kvs[i].1
      invariant forall i, j :: 0 <= i < j < |kvs| ==> kvs[i].0 != kvs[j].0
      invariant Names(kvs) == m.Keys - remaining
      invariant |kvs| + |remaining| == |m.Keys|
      decreases remaining
    {
      var k :| k in remaining;
      forall i | 0 <= i < |kvs|
        ensures kvs[i].0 != k
      {
        NamesHold(kvs, i);
      }
      ghost var before := kvs;
      kvs := kvs + [(k, m[k])];
      assert kvs[..|kvs| - 1] == before;
      remaining := remaining - {k};
    }
  }

  /** `response.Users.Select(kv => new EnvironmentRights { ... })` */
  function ToEnvironmentInfo(kvs: seq<(string, int)>): (info: EnvironmentInfo)
    ensures |info.rights| == |kvs|
    ensures forall i :: 0 <= i < |kvs| ==> info.rights[i] == EnvironmentRights(kvs[i].0, kvs[i].1)
  {
    EnvironmentInfo(seq(|kvs|, i requires 0 <= i < |kvs| => EnvironmentRights(kvs[i].0, kvs[i].1)))
  }

  /** `response.Environments.Select(kv => new UserRights { ... })` */
  function ToUserInfo(kvs: seq<(string, int)>): (info: UserInfo)
    ensures |info.permissions| == |kvs|
    ensures forall i :: 0 <= i < |kvs| ==> info.permissions[i] == UserRights(kvs[i].0, kvs[i].1)
  {
    UserInfo(seq(|kvs|, i requires 0 <= i < |kvs| => UserRights(kvs[i].0, kvs[i].1)))
  }

  /** `info` lists every user of `users` with its rights, each once, in some order. */
  ghost predicate DescribesUsers(info: EnvironmentInfo, users: map<string, int>) {
    exists kvs :: ListsPairs(kvs, users) && info == ToEnvironmentInfo(kvs)
  }

  /** `info` lists every environment of `environments` with its rights, each once, in some order. */
  ghost predicate DescribesEnvironments(info: UserInfo, environments: map<string, int>) {
    exists kvs :: ListsPairs(kvs, environments) && info == ToUserInfo(kvs)
  }
}
