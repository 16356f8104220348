/**
 * ServiceProvider: what the package registers in the service container and
 * does at boot, which collectors it tags for the agent, and the
 * configuration array it builds for the APM agent.
 */
module Provider {
  import opened Php
  import opened SpanEmission
  import opened ConfigService
  import Counters
  import FrameworkBoot
  import DbQueries
  import HttpRequests
  import Commands
  import JobEvents
  import ManualSpans

  /** The container tag every event collector is registered under. */
  const COLLECTOR_TAG: string := "event-collector"

  /** One registration register() makes in the service container. */
  datatype Binding =
    | Facade(alias: string)                 // 'apm-collector' and 'apm-agent'
    | StartTimeSingleton                    // RequestStartTime from REQUEST_TIME_FLOAT or the clock
    | CounterSingleton(limit: Value)        // the EventCounter, with its limit setting
    | AgentSingleton                        // the Agent, built from the agent configuration and the tagged collectors
    | TerminatingSend                       // the terminating callback that sends the agent's events
    | CollectorInstance(collector: string)  // a collector created at once and bound as the instance to use
    | Tag(collector: string)                // a collector tagged COLLECTOR_TAG

  /** One step of boot(). */
  datatype BootStep = PublishConfig | PrependMiddleware(middleware: string) | MakeAgent

  /** The EventCounter limit: spans.maxTraceItems, or EVENT_LIMIT when that setting does not exist. */
  function CounterLimit(config: Value): (r: Value)
    ensures !Has(config, Key(["spans", "maxTraceItems"])) ==> r == Int(Counters.EVENT_LIMIT)
    ensures Has(config, Key(["spans", "maxTraceItems"])) ==> r == Get(config, Key(["spans", "maxTraceItems"]))
  {
    GetDefault(config, Key(["spans", "maxTraceItems"]), Int(Counters.EVENT_LIMIT), Null);
    Get(config, Key(["spans", "maxTraceItems"]), Int(Counters.EVENT_LIMIT))
  }

  /** The spans.querylog.enabled setting: false switches the query collector off. */
  function QueryLogSetting(config: Value): Value {
    Get(config, Key(["spans", "querylog", "enabled"]))
  }

  /** The collectors tagged for the agent, in tagging order; `querylog` is the spans.querylog.enabled setting. */
  function TaggedCollectors(console: bool, querylog: Value): seq<string> {
    (if !console then [FrameworkBoot.NAME] else [])
      + (if querylog != Bool(false) then [DbQueries.NAME] else [])
      + (if !console then [HttpRequests.NAME] else [Commands.NAME])
      + [JobEvents.NAME]
      + [ManualSpans.NAME]
  }

  /** The six collectors the provider can tag have six different names. */
  lemma CollectorNamesDistinct()
    ensures var names := [FrameworkBoot.NAME, DbQueries.NAME, HttpRequests.NAME, Commands.NAME, JobEvents.NAME, ManualSpans.NAME];
      forall i, j :: 0 <= i < j < |names| ==> names[i] != names[j]
  {
  }

  /** TaggedCollectors as positions in the list of the six collector names. */
  lemma TaggedPositions(console: bool, querylog: Value)
    ensures var names := [FrameworkBoot.NAME, DbQueries.NAME, HttpRequests.NAME, Commands.NAME, JobEvents.NAME, ManualSpans.NAME];
      var picked: seq<nat> :=
        if console then (if querylog != Bool(false) then [1, 3, 4, 5] else [3, 4, 5])
        else (if querylog != Bool(false) then [0, 1, 2, 4, 5] else [0, 2, 4, 5]);
      var r := TaggedCollectors(console, querylog);
      |r| == |picked| && (forall i :: 0 <= i < |r| ==> picked[i] < |names| && r[i] == names[picked[i]])
      && (forall i, j :: 0 <= i < j < |picked| ==> picked[i] < picked[j])
  {
  }

  /**
   * Framework and HTTP request collectors only outside the console, the
   * command collector only inside it, the query collector unless query
   * logging is exactly false, and the job and span collectors always, last.
   */
  lemma CollectorSelection(console: bool, querylog: Value)
    ensures var r := TaggedCollectors(console, querylog);
      (FrameworkBoot.NAME in r <==> !console)
      && (HttpRequests.NAME in r <==> !console)
      && (Commands.NAME in r <==> console)
      && (DbQueries.NAME in r <==> querylog != Bool(false))
      && |r| >= 3 && r[|r| - 2..] == [JobEvents.NAME, ManualSpans.NAME]
  {
    CollectorNamesDistinct();
  }

  /** No collector is tagged twice. */
  lemma TaggedOnce(console: bool, querylog: Value)
    ensures var r := TaggedCollectors(console, querylog);
      forall i, j :: 0 <= i < j < |r| ==> r[i] != r[j]
  {
    CollectorNamesDistinct();
    TaggedPositions(console, querylog);
  }

  /** The registrations tagging each of `names`, in order. */
  function TagAll(names: seq<string>): (r: seq<Binding>)
    ensures |r| == |names| && forall i :: 0 <= i < |names| ==> r[i] == Tag(names[i])
  {
    seq(|names|, i requires 0 <= i < |names| => Tag(names[i]))
  }

  lemma TagAllSnoc(names: seq<string>, name: string)
    ensures TagAll(names + [name]) == TagAll(names) + [Tag(name)]
  {
  }

  /** The collectors a list of registrations tags, in order. */
  function Tags(bs: seq<Binding>): (r: seq<string>)
    ensures |r| <= |bs|
  {
    if bs == [] then []
    else (if bs[0].Tag? then [bs[0].collector] else []) + Tags(bs[1..])
  }

  lemma {:induction false} TagsAppend(a: seq<Binding>, b: seq<Binding>)
    ensures Tags(a + b) == Tags(a) + Tags(b)
  {
    if a == [] {
      assert a + b == b;
    } else {
      var head: seq<string> := if a[0].Tag? then [a[0].collector] else [];
      assert (a + b)[0] == a[0] && (a + b)[1..] == a[1..] + b;
      assert Tags(a + b) == head + Tags(a[1..] + b);
      TagsAppend(a[1..], b);
      assert Tags(a) == head + Tags(a[1..]);
    }
  }

  /** Tagging names one by one and reading the tags back gives the names. */
  lemma {:induction false} TagsOfTagAll(names: seq<string>)
    ensures Tags(TagAll(names)) == names
  {
    if names != [] {
      assert TagAll(names)[1..] == TagAll(names[1..]);
      TagsOfTagAll(names[1..]);
    }
  }

  /** registerCollectors: the framework collector is first created and bound as an instance, then the selected collectors are tagged. */
  function CollectorBindings(config: Value, console: bool): seq<Binding> {
    (if !console then [CollectorInstance(FrameworkBoot.NAME)] else [])
      + TagAll(TaggedCollectors(console, QueryLogSetting(config)))
  }

  /** The registrations of register(): the facades always, everything else only for an enabled agent. */
  function Registrations(config: Value, console: bool): seq<Binding> {
    [Facade("apm-collector"), Facade("apm-agent")]
      + if IsAgentDisabled(config, console) then []
        else [StartTimeSingleton, CounterSingleton(CounterLimit(config)), AgentSingleton, TerminatingSend]
             + CollectorBindings(config, console)
  }

  /** A list with no tag in it tags nothing. */
  lemma {:induction false} NoTags(bs: seq<Binding>)
    requires forall i :: 0 <= i < |bs| ==> !bs[i].Tag?
    ensures Tags(bs) == []
  {
    if bs != [] {
      NoTags(bs[1..]);
    }
  }

  /** The steps of boot(): publishing always; the middleware, and in the console an eager agent, only when enabled. */
  function BootSteps(config: Value, console: bool): seq<BootStep> {
    [PublishConfig]
      + if IsAgentDisabled(config, console) then []
        else [PrependMiddleware("RecordTransaction")] + (if console then [MakeAgent] else [])
  }

  /** A disabled agent gets nothing but the two facades. */
  lemma DisabledRegistrations(config: Value, console: bool)
    requires IsAgentDisabled(config, console)
    ensures Registrations(config, console) == [Facade("apm-collector"), Facade("apm-agent")]
    ensures Tags(Registrations(config, console)) == []
  {
    NoTags([Facade("apm-collector"), Facade("apm-agent")]);
  }

  /**
   * An enabled agent gets the counter with its limit, the agent and the
   * sending callback, and exactly the selected collectors as tagged ones.
   */
  lemma EnabledRegistrations(config: Value, console: bool)
    requires !IsAgentDisabled(config, console)
    ensures var r := Registrations(config, console);
      CounterSingleton(CounterLimit(config)) in r && AgentSingleton in r && TerminatingSend in r
      && Tags(r) == TaggedCollectors(console, QueryLogSetting(config))
  {
    var fixed := [Facade("apm-collector"), Facade("apm-agent")];
    var singletons := [StartTimeSingleton, CounterSingleton(CounterLimit(config)), AgentSingleton, TerminatingSend];
    var instance: seq<Binding> := if !console then [CollectorInstance(FrameworkBoot.NAME)] else [];
    var names := TaggedCollectors(console, QueryLogSetting(config));
    var r := Registrations(config, console);
    assert r == fixed + singletons + instance + TagAll(names);
    assert Tags(r) == names by {
      NoTags(fixed + singletons + instance);
      TagsOfTagAll(names);
      TagsAppend(fixed + singletons + instance, TagAll(names));
    }
    assert r[3] == CounterSingleton(CounterLimit(config)) && r[4] == AgentSingleton && r[5] == TerminatingSend;
  }

  /** A disabled agent only publishes the configuration; an enabled one prepends the middleware, and outside HTTP makes the agent at once. */
  lemma BootPlan(config: Value, console: bool)
    ensures var r := BootSteps(config, console);
      (IsAgentDisabled(config, console) ==> r == [PublishConfig])
      && (!IsAgentDisabled(config, console) ==>
            r[..2] == [PublishConfig, PrependMiddleware("RecordTransaction")] && (MakeAgent in r <==> console))
  {
  }

  /** The container as the provider fills it during register() and boot(). */
  class ServiceProvider {
    /** The configuration repository, with the package's defaults merged in. */
    const config: Value
    /** runningInConsole(). */
    const console: bool
    var bindings: seq<Binding>
    var booted: seq<BootStep>

    constructor (config: Value, console: bool)
      ensures this.config == config && this.console == console && bindings == [] && booted == []
    {
      this.config := config;
      this.console := console;
      bindings := [];
      booted := [];
    }

    method Register()
      modifies this`bindings
      ensures bindings == old(bindings) + Registrations(config, console)
    {
      bindings := bindings + [Facade("apm-collector"), Facade("apm-agent")];
      if IsAgentDisabled(config, console) {
        return;
      }
      bindings := bindings + [StartTimeSingleton];
      RegisterAgent();
      RegisterCollectors();
    }

    method RegisterAgent()
      modifies this`bindings
      ensures bindings == old(bindings) + [CounterSingleton(CounterLimit(config)), AgentSingleton, TerminatingSend]
    {
      var limit := Get(config, Key(["spans", "maxTraceItems"]), Int(Counters.EVENT_LIMIT));
      bindings := bindings + [CounterSingleton(limit), AgentSingleton, TerminatingSend];
    }

    method RegisterCollectors()
      modifies this`bindings
      ensures bindings == old(bindings) + CollectorBindings(config, console)
    {
      var querylog := QueryLogSetting(config);
      var instance: seq<Binding> := [];
      if !console {
        instance := [CollectorInstance(FrameworkBoot.NAME)];
      }
      // The tags registered so far, and (ghost) the collectors they name.
      var tags: seq<Binding> := [];
      ghost var tagged: seq<string> := [];
      if !console {
        TagAllSnoc(tagged, FrameworkBoot.NAME);
        tags, tagged := tags + [Tag(FrameworkBoot.NAME)], tagged + [FrameworkBoot.NAME];
      }
      if querylog != Bool(false) {
        TagAllSnoc(tagged, DbQueries.NAME);
        tags, tagged := tags + [Tag(DbQueries.NAME)], tagged + [DbQueries.NAME];
      }
      var request := if !console then HttpRequests.NAME else Commands.NAME;
      TagAllSnoc(tagged, request);
      tags, tagged := tags + [Tag(request)], tagged + [request];
      TagAllSnoc(tagged, JobEvents.NAME);
      tags, tagged := tags + [Tag(JobEvents.NAME)], tagged + [JobEvents.NAME];
      TagAllSnoc(tagged, ManualSpans.NAME);
      tags, tagged := tags + [Tag(ManualSpans.NAME)], tagged + [ManualSpans.NAME];
      assert tagged == TaggedCollectors(console, querylog);
      var added := instance + tags;
      bindings := bindings + added;
    }

    method Boot()
      modifies this`booted
      ensures booted == old(booted) + BootSteps(config, console)
    {
      booted := booted + [PublishConfig];
      if IsAgentDisabled(config, console) {
        return;
      }
      booted := booted + [PrependMiddleware("RecordTransaction")];
      if console {
        booted := booted + [MakeAgent];
      }
    }
  }

  /** The service name the agent falls back on: the app name, or "Laravel" when that is empty. */
  function DefaultServiceName(config: Value): (r: Value)
    ensures Truthy(r)
    ensures Truthy(Get(config, Key(["app", "appName"]))) ==> r == Get(config, Key(["app", "appName"]))
  {
    var name := Get(config, Key(["app", "appName"]));
    if Falsy(name) then Str("Laravel") else name
  }

  /** The base array of getAgentConfig, its keys all distinct. */
  function ProviderBase(serviceName: Value, frameworkVersion: string, active: Value, environment: Value,
                        logger: Value, logLevel: Value): (a: Assoc)
    ensures UniqueKeys(a)
    ensures Keys(a) == ["defaultServiceName", "frameworkName", "frameworkVersion", "active", "environment", "logger", "logLevel"]
  {
    [("defaultServiceName", serviceName), ("frameworkName", Str("Laravel")), ("frameworkVersion", Str(frameworkVersion)),
     ("active", active), ("environment", environment), ("logger", logger), ("logLevel", logLevel)]
  }

  /**
   * getAgentConfig: array_filter(array_merge(base, app, server)). `logger`
   * is the log instance; `resolver` the bound VersionResolver's version.
   */
  function AgentSettings(config: Value, frameworkVersion: string, logger: Value, resolver: Option<string>)
    : (r: Result<Assoc, AgentError>)
    ensures r.Ok? <==> AppUsable(Get(config, Key(["app"])), resolver) && Get(config, Key(["server"])).Map?
  {
    var base := ProviderBase(DefaultServiceName(config), frameworkVersion, Get(config, Key(["active"])),
                             Get(config, Key(["env", "environment"])), logger,
                             Get(config, Key(["log-level"]), Str("error")));
    match (AppConfig(config, resolver), Section(config, "server", "array_merge"))
    case (Ok(app), Ok(server)) => Ok(Filter(Merge(Merge(base, app), server)))
    case (Err(e), _) => Err(e)
    case (_, Err(e)) => Err(e)
  }

  /** No setting handed to the agent is null, false, 0, "" or an empty array. */
  lemma AgentSettingsTruthy(config: Value, frameworkVersion: string, logger: Value, resolver: Option<string>)
    requires AgentSettings(config, frameworkVersion, logger, resolver).Ok?
    ensures var r := AgentSettings(config, frameworkVersion, logger, resolver).value;
      forall i :: 0 <= i < |r| ==> Truthy(r[i].1)
  {
    var base := ProviderBase(DefaultServiceName(config), frameworkVersion, Get(config, Key(["active"])),
                             Get(config, Key(["env", "environment"])), logger,
                             Get(config, Key(["log-level"]), Str("error")));
    FilterAllTruthy(Merge(Merge(base, AppConfig(config, resolver).value), Get(config, Key(["server"])).entries));
  }

  /**
   * A setting reaches the agent with the server section's value when it has
   * one, else the app section's, else the base value, and only when that value is truthy.
   */
  lemma {:induction false} AgentSettingsLookup(config: Value, frameworkVersion: string, logger: Value,
                                               resolver: Option<string>, k: string)
    requires AgentSettings(config, frameworkVersion, logger, resolver).Ok?
    requires UniqueKeys(AppConfig(config, resolver).value) && UniqueKeys(Get(config, Key(["server"])).entries)
    ensures var app := AppConfig(config, resolver).value;
      var server := Get(config, Key(["server"])).entries;
      var base := ProviderBase(DefaultServiceName(config), frameworkVersion, Get(config, Key(["active"])),
                               Get(config, Key(["env", "environment"])), logger,
                               Get(config, Key(["log-level"]), Str("error")));
      var v := if k in Keys(server) then Lookup(server, k) else if k in Keys(app) then Lookup(app, k) else Lookup(base, k);
      Lookup(AgentSettings(config, frameworkVersion, logger, resolver).value, k)
        == if v.Some? && Truthy(v.value) then v else None
  {
    var app := AppConfig(config, resolver).value;
    var server := Get(config, Key(["server"])).entries;
    var base := ProviderBase(DefaultServiceName(config), frameworkVersion, Get(config, Key(["active"])),
                             Get(config, Key(["env", "environment"])), logger,
                             Get(config, Key(["log-level"]), Str("error")));
    MergeUnique(base, app);
    MergeUnique(Merge(base, app), server);
    FilterLookup(Merge(Merge(base, app), server), k);
    MergeLookup(Merge(base, app), server, k);
    MergeLookup(base, app, k);
  }

  /**
   * Unless the app or server section names it, the agent always gets a
   * default service name: the app name, or "Laravel" for an empty one.
   */
  lemma ServiceNameAlwaysSet(config: Value, frameworkVersion: string, logger: Value, resolver: Option<string>)
    requires AgentSettings(config, frameworkVersion, logger, resolver).Ok?
    requires UniqueKeys(AppConfig(config, resolver).value) && UniqueKeys(Get(config, Key(["server"])).entries)
    requires "defaultServiceName" !in Keys(AppConfig(config, resolver).value)
    requires "defaultServiceName" !in Keys(Get(config, Key(["server"])).entries)
    ensures Lookup(AgentSettings(config, frameworkVersion, logger, resolver).value, "defaultServiceName")
      == Some(DefaultServiceName(config))
  {
    AgentSettingsLookup(config, frameworkVersion, logger, resolver, "defaultServiceName");
    var base := ProviderBase(DefaultServiceName(config), frameworkVersion, Get(config, Key(["active"])),
                             Get(config, Key(["env", "environment"])), logger,
                             Get(config, Key(["log-level"]), Str("error")));
    LookupAt(base, 0, "defaultServiceName");
  }
}
