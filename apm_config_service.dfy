/**
 * ApmConfigService: read access to the package configuration, the rule that
 * switches the agent off, and the configuration array handed to the APM
 * agent, assembled by array_merge from the package's sections.
 */
module ConfigService {
  import opened Php
  import opened SpanEmission

  /** The package's configuration namespace. */
  const PACKAGE: string := "elastic-apm-laravel"

  /** The path of a package setting: `elastic-apm-laravel.<path>`. */
  function Key(path: seq<string>): seq<string> {
    [PACKAGE] + path
  }

  /** Whether the nested arrays of `root` hold a value at `path` (a null value counts as present). */
  predicate Has(root: Value, path: seq<string>)
    decreases |path|
  {
    path == [] ||
    (root.Map? && Lookup(root.entries, path[0]).Some? && Has(Lookup(root.entries, path[0]).value, path[1..]))
  }

  /**
   * The repository's get($key, $default) for a dotted key: each segment
   * selects an entry of the array reached so far; the default stands in for
   * a missing one, and for a segment applied to something that is not an array.
   */
  function Get(root: Value, path: seq<string>, default: Value := Null): (r: Value)
    decreases |path|
  {
    if path == [] then root
    else match root
      case Map(entries) =>
        (match Lookup(entries, path[0])
         case Some(v) => Get(v, path[1..], default)
         case None => default)
      case _ => default
  }

  /**
   * The default is answered exactly for settings that do not exist: a present
   * setting, even a null one, is returned whatever the default.
   */
  lemma {:induction false} GetDefault(root: Value, path: seq<string>, default: Value, other: Value)
    ensures Has(root, path) ==> Get(root, path, default) == Get(root, path, other)
    ensures !Has(root, path) ==> Get(root, path, default) == default
    decreases |path|
  {
    if path != [] && root.Map? && Lookup(root.entries, path[0]).Some? {
      GetDefault(Lookup(root.entries, path[0]).value, path[1..], default, other);
    }
  }

  /** A dotted key reads the same value as reading its first segment and then the rest inside it. */
  lemma {:induction false} GetNested(root: Value, first: seq<string>, rest: seq<string>, default: Value)
    requires Has(root, first)
    ensures Get(root, first + rest, default) == Get(Get(root, first), rest, default)
    decreases |first|
  {
    if first != [] {
      assert (first + rest)[0] == first[0];
      assert (first + rest)[1..] == first[1..] + rest;
      GetNested(Lookup(root.entries, first[0]).value, first[1..], rest, default);
    } else {
      assert first + rest == rest;
    }
  }

  /** Once a dotted key reaches an array, one more segment reads that array's entry. */
  lemma {:induction false} GetBelow(root: Value, path: seq<string>, entries: Assoc, name: string)
    requires Get(root, path) == Map(entries)
    requires Lookup(entries, name).Some?
    ensures Get(root, path + [name]) == Lookup(entries, name).value
    decreases |path|
  {
    if path == [] {
      assert path + [name] == [name];
    } else {
      assert (path + [name])[0] == path[0];
      assert (path + [name])[1..] == path[1..] + [name];
      GetBelow(Lookup(root.entries, path[0]).value, path[1..], entries, name);
    }
  }

  /** A package setting three levels down, read through the array two levels down. */
  lemma GetThirdLevel(root: Value, section: string, group: string, entries: Assoc, name: string)
    requires Get(root, Key([section, group])) == Map(entries)
    requires Lookup(entries, name).Some?
    ensures Get(root, Key([section, group, name])) == Lookup(entries, name).value
  {
    assert Key([section, group, name]) == Key([section, group]) + [name];
    GetBelow(root, Key([section, group]), entries, name);
  }

  /** A package setting read from a repository that holds only the package's settings. */
  lemma {:induction false} GetInPackage(settings: Assoc, path: seq<string>)
    requires 1 <= |path| <= 2
    requires Lookup(settings, path[0]).Some?
    requires |path| == 2 ==> Lookup(settings, path[0]).value.Map?
                             && Lookup(Lookup(settings, path[0]).value.entries, path[1]).Some?
    ensures Get(Map([(PACKAGE, Map(settings))]), Key(path))
      == if |path| == 1 then Lookup(settings, path[0]).value
         else Lookup(Lookup(settings, path[0]).value.entries, path[1]).value
  {
    LookupCons(PACKAGE, Map(settings), [], PACKAGE);
    var v := Lookup(settings, path[0]).value;
    assert Key(path)[0] == PACKAGE && Key(path)[1..] == path;
    assert Get(Map([(PACKAGE, Map(settings))]), Key(path)) == Get(Map(settings), path);
    assert Get(Map(settings), path) == Get(v, path[1..]);
    if |path| == 2 {
      assert path[1..][1..] == [];
    }
  }

  /** The agent is off when active is exactly false, or, in the console, when cli.active is. */
  predicate AgentDisabled(active: Value, cliActive: Value, console: bool) {
    active == Bool(false) || (console && cliActive == Bool(false))
  }

  /** Only an explicit false switches the agent off: a missing (null) or falsy setting does not. */
  lemma OnlyFalseDisables(active: Value, cliActive: Value, console: bool)
    ensures AgentDisabled(Null, Null, console) == false
    ensures AgentDisabled(Str(""), Int(0), console) == false
    ensures !console ==> (AgentDisabled(active, cliActive, console) <==> active == Bool(false))
  {
  }

  /**
   * isAgentDisabled: `console` is whether PHP runs from the command line; the
   * cli.active setting is consulted only there, and only when active is not false.
   */
  function IsAgentDisabled(config: Value, console: bool): (r: bool)
    ensures Get(config, Key(["active"])) == Bool(false) ==> r
    ensures !console ==> (r <==> Get(config, Key(["active"])) == Bool(false))
    ensures console && Get(config, Key(["active"])) == Bool(true)
      ==> (r <==> Get(config, Key(["cli", "active"])) == Bool(false))
  {
    AgentDisabled(Get(config, Key(["active"])), Get(config, Key(["cli", "active"])), console)
  }

  /** A section of the package configuration as an array, or the TypeError that using anything else as one raises. */
  function Section(config: Value, name: string, member: string): (r: Result<Assoc, AgentError>)
    ensures r.Ok? <==> Get(config, Key([name])).Map?
    ensures r.Ok? ==> r.value == Get(config, Key([name])).entries
  {
    match Get(config, Key([name]))
    case Map(entries) => Ok(entries)
    case _ => Err(TypeError(member, "array"))
  }

  /**
   * Whether getAppConfig returns an array: the app section is one, or a
   * resolver is bound and the section is null or false, which assigning
   * `$config['appVersion']` turns into a fresh array.
   */
  predicate AppUsable(app: Value, resolver: Option<string>) {
    app.Map? || (resolver.Some? && (app == Null || app == Bool(false)))
  }

  /**
   * getAppConfig: the app section, with appVersion replaced by the version a
   * bound VersionResolver reports (`resolver` is None when none is bound);
   * anything else than an array is the TypeError of its `array` return type.
   */
  function AppConfig(config: Value, resolver: Option<string>): (r: Result<Assoc, AgentError>)
    ensures r.Ok? <==> AppUsable(Get(config, Key(["app"])), resolver)
    ensures r.Ok? && !Get(config, Key(["app"])).Map? ==> r.value == [("appVersion", Str(resolver.value))]
  {
    match Get(config, Key(["app"]))
    case Map(app) => Ok(if resolver.Some? then Put(app, "appVersion", Str(resolver.value)) else app)
    case Null => Vivified(resolver)
    case Bool(b) => if b then Err(TypeError("getAppConfig", "array")) else Vivified(resolver)
    case _ => Err(TypeError("getAppConfig", "array"))
  }

  /** An app section of null or false: the one-entry array the appVersion assignment creates, or the TypeError without a resolver. */
  function Vivified(resolver: Option<string>): Result<Assoc, AgentError> {
    if resolver.Some? then Ok([("appVersion", Str(resolver.value))]) else Err(TypeError("getAppConfig", "array"))
  }

  /** A bound resolver decides appVersion and leaves every other app setting alone; without one the section is returned as it is. */
  lemma AppVersionOverride(config: Value, resolver: Option<string>, k: string)
    requires Get(config, Key(["app"])).Map?
    ensures var app := Get(config, Key(["app"])).entries;
      var r := AppConfig(config, resolver).value;
      (resolver.None? ==> r == app)
      && (resolver.Some? ==> Lookup(r, k) == if k == "appVersion" then Some(Str(resolver.value)) else Lookup(app, k))
  {
    if resolver.Some? {
      PutLookup(Get(config, Key(["app"])).entries, "appVersion", Str(resolver.value), k);
    }
  }

  /** The first two arrays getAgentConfig merges: framework identity, then the active flag and HTTP client options. */
  function AgentBase(config: Value, console: bool, frameworkVersion: string): Assoc {
    Merge([("framework", Str("Laravel")), ("frameworkVersion", Str(frameworkVersion))],
          [("active", Bool(IsAgentDisabled(config, console))),
           ("httpClient", Get(config, Key(["httpClient"])))])
  }

  /**
   * getAgentConfig: array_merge of the framework identity, {active,
   * httpClient}, the app, env and server sections; a section that is not an
   * array is the TypeError array_merge raises.
   */
  function AgentConfig(config: Value, console: bool, frameworkVersion: string, resolver: Option<string>)
    : (r: Result<Assoc, AgentError>)
    ensures r.Ok? <==> AppUsable(Get(config, Key(["app"])), resolver) && Get(config, Key(["env"])).Map?
                       && Get(config, Key(["server"])).Map?
  {
    match (AppConfig(config, resolver), Section(config, "env", "array_merge"), Section(config, "server", "array_merge"))
    case (Ok(app), Ok(env), Ok(server)) =>
      Ok(Merge(Merge(Merge(AgentBase(config, console, frameworkVersion), app), env), server))
    case (Err(e), _, _) => Err(e)
    case (_, Err(e), _) => Err(e)
    case (_, _, Err(e)) => Err(e)
  }

  /** The four base entries, in order, with the active flag holding isAgentDisabled's answer. */
  lemma AgentBaseEntries(config: Value, console: bool, frameworkVersion: string)
    ensures AgentBase(config, console, frameworkVersion)
      == [("framework", Str("Laravel")), ("frameworkVersion", Str(frameworkVersion)),
          ("active", Bool(IsAgentDisabled(config, console))), ("httpClient", Get(config, Key(["httpClient"])))]
  {
    var a := [("framework", Str("Laravel")), ("frameworkVersion", Str(frameworkVersion))];
    var b := [("active", Bool(IsAgentDisabled(config, console))), ("httpClient", Get(config, Key(["httpClient"])))];
    PutAbsent(a, b[0].0, b[0].1);
    var a1 := a + [b[0]];
    PutAbsent(a1, b[1].0, b[1].1);
    assert Merge(a, b) == Merge(a1, b[1..]);
    assert Merge(a1, b[1..]) == Merge(a1 + [b[1]], b[1..][1..]);
    assert b[1..][1..] == [];
  }

  /**
   * Later arrays win: a setting is the server's when the server section has
   * it, else env's, else the (resolved) app section's, else the base value.
   */
  lemma {:induction false} AgentConfigPrecedence(config: Value, console: bool, frameworkVersion: string,
                                                 resolver: Option<string>, k: string)
    requires AgentConfig(config, console, frameworkVersion, resolver).Ok?
    requires UniqueKeys(AppConfig(config, resolver).value)
    requires UniqueKeys(Get(config, Key(["env"])).entries) && UniqueKeys(Get(config, Key(["server"])).entries)
    ensures var app := AppConfig(config, resolver).value;
      var env := Get(config, Key(["env"])).entries;
      var server := Get(config, Key(["server"])).entries;
      Lookup(AgentConfig(config, console, frameworkVersion, resolver).value, k)
        == if k in Keys(server) then Lookup(server, k)
           else if k in Keys(env) then Lookup(env, k)
           else if k in Keys(app) then Lookup(app, k)
           else Lookup(AgentBase(config, console, frameworkVersion), k)
  {
    var base := AgentBase(config, console, frameworkVersion);
    var app := AppConfig(config, resolver).value;
    var env := Get(config, Key(["env"])).entries;
    var server := Get(config, Key(["server"])).entries;
    MergeLookup(Merge(Merge(base, app), env), server, k);
    MergeLookup(Merge(base, app), env, k);
    MergeLookup(base, app, k);
  }

  /**
   * The 'active' entry carries isAgentDisabled()'s answer, so an enabled
   * agent is configured with active false, unless a section sets 'active' itself.
   */
  lemma ActiveHoldsDisabled(config: Value, console: bool, frameworkVersion: string, resolver: Option<string>)
    requires AgentConfig(config, console, frameworkVersion, resolver).Ok?
    requires UniqueKeys(AppConfig(config, resolver).value)
    requires UniqueKeys(Get(config, Key(["env"])).entries) && UniqueKeys(Get(config, Key(["server"])).entries)
    requires "active" !in Keys(AppConfig(config, resolver).value)
    requires "active" !in Keys(Get(config, Key(["env"])).entries) && "active" !in Keys(Get(config, Key(["server"])).entries)
    ensures Lookup(AgentConfig(config, console, frameworkVersion, resolver).value, "active")
      == Some(Bool(IsAgentDisabled(config, console)))
  {
    AgentConfigPrecedence(config, console, frameworkVersion, resolver, "active");
    AgentBaseEntries(config, console, frameworkVersion);
  }
}
