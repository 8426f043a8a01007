/**
 * The three inputs every value operation resolves before it builds a request:
 * the path, the environment and the override.
 */
module Resolution {
  import opened Wrappers
  import opened Exceptions

  /** A path that begins and ends with '/'. */
  predicate Wrapped(p: string) {
    |p| > 0 && p[0] == '/' && p[|p| - 1] == '/'
  }

  /**
   * The canonical form of a value path: null or empty becomes "/", otherwise a
   * '/' is put in front and/or behind where one is missing.
   */
  function CanonicalPath(path: Option<string>): (r: string)
    ensures Wrapped(r)
    ensures IsNullOrEmpty(path) ==> r == "/"
    ensures !IsNullOrEmpty(path) && Wrapped(path.value) ==> r == path.value
    ensures !IsNullOrEmpty(path) ==>
      var p := path.value;
      var lead := if p[0] == '/' then 0 else 1;
      && |r| == |p| + lead + (if p[|p| - 1] == '/' then 0 else 1)
      && r[lead..lead + |p|] == p
  {
    if IsNullOrEmpty(path) then "/"
    else
      var p := path.value;
      (if p[0] != '/' then "/" else "") + p + (if p[|p| - 1] != '/' then "/" else "")
  }

  /** Canonicalising twice is canonicalising once. */
  lemma CanonicalPathIdempotent(path: Option<string>)
    ensures CanonicalPath(Some(CanonicalPath(path))) == CanonicalPath(path)
  {
  }

  /**
   * `GetEnv`: the explicit environment when it is non-empty, else the
   * session's default when that is non-empty, else InvalidRequest.
   */
  function ResolveEnvironment(environment: Option<string>, defaultEnvironment: Option<string>): (r: Outcome<string>)
    ensures !IsNullOrEmpty(environment) ==> r == Success(environment.value)
    ensures IsNullOrEmpty(environment) && !IsNullOrEmpty(defaultEnvironment) ==> r == Success(defaultEnvironment.value)
    ensures IsNullOrEmpty(environment) && IsNullOrEmpty(defaultEnvironment) ==> r == Failure(InvalidRequest)
  {
    if IsNullOrEmpty(environment) && IsNullOrEmpty(defaultEnvironment) then Failure(InvalidRequest)
    else if IsNullOrEmpty(environment) then Success(defaultEnvironment.value)
    else Success(environment.value)
  }

  /** A resolved environment is never empty, and an explicit one ignores the default. */
  lemma ResolvedEnvironmentIsNonEmpty(environment: Option<string>, d1: Option<string>, d2: Option<string>)
    ensures ResolveEnvironment(environment, d1).Success? ==> ResolveEnvironment(environment, d1).value != ""
    ensures !IsNullOrEmpty(environment) ==> ResolveEnvironment(environment, d1) == ResolveEnvironment(environment, d2)
    ensures ResolveEnvironment(environment, d1).Failure? <==> IsNullOrEmpty(environment) && IsNullOrEmpty(d1)
  {
  }

  /**
   * `SyncSettingsInstance.GetOverride`: null asks for the value the user sees
   * (no parameter); "" asks for the default value (`override=`); a name asks
   * for that override (`override=name`).
   */
  function GetOverride(over: Option<string>): (args: map<string, string>)
    ensures "override" in args <==> over.Some?
    ensures args.Keys <= {"override"}
    ensures over.Some? ==> args["override"] == over.value
  {
    if over.None? then map[] else map["override" := over.value]
  }

  /** Null, "" and every name give pairwise different parameters. */
  lemma GetOverrideIsInjective(a: Option<string>, b: Option<string>)
    ensures GetOverride(a) == GetOverride(b) <==> a == b
  {
    if GetOverride(a) == GetOverride(b) {
      if a.Some? {
        assert "override" in GetOverride(b);
        assert GetOverride(a)["override"] == GetOverride(b)["override"];
      } else {
        assert "override" !in GetOverride(b);
      }
    }
  }

  /** The three cases the override distinguishes. */
  lemma GetOverrideCases(name: string)
    ensures GetOverride(None) == map[]
    ensures GetOverride(Some("")) == map["override" := ""]
    ensures GetOverride(Some(name)) == map["override" := name]
  {
  }
}
