/**
 * The package configuration file: one array of settings, each read from an
 * environment variable (the APM_* name first, then, for several settings,
 * the ELASTIC_APM_* name) with a built-in default, and an application name
 * restricted to a few characters.
 */
module PackageConfig {
  import opened Php
  import opened ConfigService

  /** What env() answers for a set variable, after Laravel's own conversions. */
  datatype EnvValue = Text(text: string) | Flag(flag: bool) | Nothing

  /** The process environment: the variables that are set. */
  type Environment = map<string, EnvValue>

  function ToValue(e: EnvValue): Value {
    match e
    case Text(s) => Str(s)
    case Flag(b) => Bool(b)
    case Nothing => Null
  }

  /** env($name, $default). */
  function Env(env: Environment, name: string, default: Value): Value {
    if name in env then ToValue(env[name]) else default
  }

  /** env($primary, env($secondary, $default)): the first of the two variables that is set, else the default. */
  function EnvFallback(env: Environment, primary: string, secondary: string, default: Value): (r: Value)
    ensures primary in env ==> r == ToValue(env[primary])
    ensures primary !in env && secondary in env ==> r == ToValue(env[secondary])
    ensures primary !in env && secondary !in env ==> r == default
  {
    Env(env, primary, Env(env, secondary, default))
  }

  /** The characters an application name may keep: letters, digits, space, '_' and '-'. */
  predicate NameChar(c: char) {
    ('a' <= c <= 'z') || ('A' <= c <= 'Z') || ('0' <= c <= '9') || c == ' ' || c == '_' || c == '-'
  }

  /** The number of bytes UTF-8 spends on a character: one exactly for ASCII. */
  function Utf8Width(c: char): (n: nat)
    ensures n == 1 <==> c as int < 0x80
    ensures 1 <= n <= 4
  {
    if c as int < 0x80 then 1
    else if c as int < 0x800 then 2
    else if c as int < 0x1_0000 then 3
    else 4
  }

  /** The length in bytes of a string's UTF-8 encoding. */
  function Utf8Length(s: string): nat {
    if s == [] then 0 else Utf8Width(s[0]) + Utf8Length(s[1..])
  }

  function Dashes(n: nat): (r: string)
    ensures |r| == n && forall i :: 0 <= i < n ==> r[i] == '-'
  {
    seq(n, _ => '-')
  }

  /**
   * preg_replace('/[^a-zA-Z0-9 _-]/', '-', s): without the u modifier the
   * pattern runs over the bytes of s's UTF-8 encoding, so a permitted
   * character stays and any other becomes one '-' per byte it takes.
   */
  function Sanitize(s: string): (r: string)
    ensures |r| == Utf8Length(s)
    ensures forall i :: 0 <= i < |r| ==> NameChar(r[i])
  {
    if s == [] then []
    else (if NameChar(s[0]) then [s[0]] else Dashes(Utf8Width(s[0]))) + Sanitize(s[1..])
  }

  /** Sanitising works piece by piece: a concatenation is sanitised part by part. */
  lemma {:induction false} SanitizeAppend(a: string, b: string)
    ensures Sanitize(a + b) == Sanitize(a) + Sanitize(b)
  {
    if a == [] {
      assert a + b == b;
    } else {
      assert (a + b)[1..] == a[1..] + b;
      SanitizeAppend(a[1..], b);
    }
  }

  /** On ASCII text the replacement is one for one: each character stays or becomes '-'. */
  lemma {:induction false} SanitizeAscii(s: string)
    requires forall i :: 0 <= i < |s| ==> s[i] as int < 0x80
    ensures |Sanitize(s)| == |s|
    ensures forall i :: 0 <= i < |s| ==> Sanitize(s)[i] == if NameChar(s[i]) then s[i] else '-'
  {
    if s != [] {
      SanitizeAscii(s[1..]);
      var head := if NameChar(s[0]) then [s[0]] else Dashes(1);
      assert Sanitize(s) == head + Sanitize(s[1..]);
      forall i | 0 <= i < |s|
        ensures Sanitize(s)[i] == if NameChar(s[i]) then s[i] else '-'
      {
        if i > 0 {
          assert Sanitize(s)[i] == Sanitize(s[1..])[i - 1];
          assert s[1..][i - 1] == s[i];
        }
      }
    }
  }

  /** A name of permitted characters only passes unchanged. */
  lemma {:induction false} SanitizeKeeps(s: string)
    requires forall i :: 0 <= i < |s| ==> NameChar(s[i])
    ensures Sanitize(s) == s
  {
    if s != [] {
      assert forall i :: 0 <= i < |s[1..]| ==> NameChar(s[1..][i]) by {
        forall i | 0 <= i < |s[1..]| ensures NameChar(s[1..][i]) {
          assert s[1..][i] == s[i + 1];
        }
      }
      SanitizeKeeps(s[1..]);
    }
  }

  /** Sanitising a sanitised name again changes nothing. */
  lemma SanitizeIdempotent(s: string)
    ensures Sanitize(Sanitize(s)) == Sanitize(s)
  {
    SanitizeKeeps(Sanitize(s));
  }

  /** A character UTF-8 encodes in two bytes becomes two dashes: "Café" is sent as "Caf--". */
  lemma WideCharPerByte()
    ensures Sanitize("Caf\U{E9}") == "Caf--"
  {
    SanitizeAppend("Caf", "\U{E9}");
    SanitizeKeeps("Caf");
    assert Utf8Width('\U{E9}') == 2;
  }

  /** The default name "Laravel" passes unchanged. */
  lemma DefaultNameKept()
    ensures Sanitize("Laravel") == "Laravel"
  {
    var s := "Laravel";
    assert s[0] == 'L' && s[1] == 'a' && s[2] == 'r' && s[3] == 'a' && s[4] == 'v' && s[5] == 'e' && s[6] == 'l';
    assert forall i :: 0 <= i < |s| ==> NameChar(s[i]);
  }

  /** The subject preg_replace works on: the variable's string form (true is "1", false and null are ""). */
  function Subject(v: Value): string {
    match v
    case Str(s) => s
    case Bool(b) => if b then "1" else ""
    case _ => ""
  }

  function AppSection(env: Environment): Assoc {
    [("appName", Str(Sanitize(Subject(EnvFallback(env, "APM_APPNAME", "ELASTIC_APM_SERVICE_NAME", Str("Laravel")))))),
     ("appVersion", EnvFallback(env, "APM_APPVERSION", "ELASTIC_APM_SERVICE_VERSION", Null))]
  }

  function EnvSection(env: Environment): Assoc {
    [("env", List([Str("DOCUMENT_ROOT"), Str("REMOTE_ADDR")])),
     ("environment", Env(env, "APM_ENVIRONMENT", Str("development")))]
  }

  /** `hostname` is gethostname()'s answer. */
  function ServerSection(env: Environment, hostname: Value): Assoc {
    [("serverUrl", EnvFallback(env, "APM_SERVERURL", "ELASTIC_APM_SERVER_URL", Str("http://127.0.0.1:8200"))),
     ("secretToken", EnvFallback(env, "APM_SECRETTOKEN", "ELASTIC_APM_SECRET_TOKEN", Null)),
     ("hostname", Env(env, "ELASTIC_APM_HOSTNAME", hostname))]
  }

  function SpansSection(env: Environment): Assoc {
    [("maxTraceItems", Env(env, "APM_MAXTRACEITEMS", Int(1000))),
     ("backtraceDepth", EnvFallback(env, "APM_BACKTRACEDEPTH", "ELASTIC_APM_STACK_TRACE_LIMIT", Int(25))),
     ("querylog", Map(QueryLogSection(env)))]
  }

  function QueryLogSection(env: Environment): Assoc {
    [("enabled", Env(env, "APM_QUERYLOG", Bool(true))),
     ("threshold", Env(env, "APM_THRESHOLD", Int(200)))]
  }

  function CliSection(env: Environment): Assoc {
    [("active", Env(env, "APM_ACTIVE_CLI", Bool(true)))]
  }

  function AgentSection(env: Environment): Assoc {
    [("transactionSampleRate", Env(env, "ELASTIC_APM_TRANSACTION_SAMPLE_RATE", Int(1)))]
  }

  function TransactionsSection(env: Environment): Assoc {
    [("useRouteUri", Env(env, "APM_USEROUTEURI", Bool(true))),
     ("ignorePatterns", Env(env, "APM_IGNORE_PATTERNS", Null))]
  }

  /** The file's top-level keys, in order. */
  const SETTINGS: seq<string> := ["active", "log-level", "cli", "app", "env", "server", "agent", "transactions", "spans"]

  /** The file's array shape: its top-level settings, in order, holding the given values. */
  function Layout(active: Value, logLevel: Value, cli: Value, app: Value, env: Value, server: Value,
                  agent: Value, transactions: Value, spans: Value): (a: Assoc)
    ensures Keys(a) == SETTINGS
  {
    [("active", active), ("log-level", logLevel), ("cli", cli), ("app", app), ("env", env),
     ("server", server), ("agent", agent), ("transactions", transactions), ("spans", spans)]
  }

  /** Each top-level key reads back its own entry. */
  lemma LayoutAt(active: Value, logLevel: Value, cli: Value, app: Value, env: Value, server: Value,
                 agent: Value, transactions: Value, spans: Value, i: nat)
    requires i < |SETTINGS|
    ensures var a := Layout(active, logLevel, cli, app, env, server, agent, transactions, spans);
      Lookup(a, SETTINGS[i]) == Some(a[i].1)
  {
    var a := Layout(active, logLevel, cli, app, env, server, agent, transactions, spans);
    assert forall j :: 0 <= j < |SETTINGS| ==> a[j].0 == SETTINGS[j] by {
      assert Keys(a) == SETTINGS;
    }
    assert forall j :: 0 <= j < i ==> SETTINGS[j] != SETTINGS[i];
    LookupAt(a, i, SETTINGS[i]);
  }

  /** The file's array. */
  function Settings(env: Environment, hostname: Value): Assoc {
    Layout(EnvFallback(env, "APM_ACTIVE", "ELASTIC_APM_ENABLED", Bool(true)),
           Env(env, "APM_LOG_LEVEL", Str("info")),
           Map(CliSection(env)),
           Map(AppSection(env)),
           Map(EnvSection(env)),
           Map(ServerSection(env, hostname)),
           Map(AgentSection(env)),
           Map(TransactionsSection(env)),
           Map(SpansSection(env)))
  }

  /** The setting at index i of the file reads back its own entry. */
  lemma SettingsAt(env: Environment, hostname: Value, i: nat)
    requires i < |SETTINGS|
    ensures Lookup(Settings(env, hostname), SETTINGS[i]) == Some(Settings(env, hostname)[i].1)
  {
    LayoutAt(EnvFallback(env, "APM_ACTIVE", "ELASTIC_APM_ENABLED", Bool(true)),
             Env(env, "APM_LOG_LEVEL", Str("info")),
             Map(CliSection(env)), Map(AppSection(env)), Map(EnvSection(env)), Map(ServerSection(env, hostname)),
             Map(AgentSection(env)), Map(TransactionsSection(env)), Map(SpansSection(env)), i);
  }

  /** A configuration repository holding only the package's settings. */
  function Repository(env: Environment, hostname: Value): Value {
    Map([(PACKAGE, Map(Settings(env, hostname)))])
  }

  /** Reading a package setting two levels down. */
  lemma GetSetting(env: Environment, hostname: Value, section: string, entries: Assoc, name: string)
    requires Lookup(Settings(env, hostname), section) == Some(Map(entries))
    requires Lookup(entries, name).Some?
    ensures Get(Repository(env, hostname), Key([section, name])) == Lookup(entries, name).value
  {
    GetInPackage(Settings(env, hostname), [section, name]);
  }

  /** Reading a top-level package setting. */
  lemma GetTopSetting(env: Environment, hostname: Value, name: string)
    requires Lookup(Settings(env, hostname), name).Some?
    ensures Get(Repository(env, hostname), Key([name])) == Lookup(Settings(env, hostname), name).value
  {
    GetInPackage(Settings(env, hostname), [name]);
  }

  /**
   * The app name is the APM_APPNAME variable, else ELASTIC_APM_SERVICE_NAME,
   * else "Laravel", with each character outside the permitted set turned into one '-' per UTF-8 byte.
   */
  lemma AppNameSetting(env: Environment, hostname: Value)
    ensures Get(Repository(env, hostname), Key(["app", "appName"]))
      == Str(Sanitize(Subject(EnvFallback(env, "APM_APPNAME", "ELASTIC_APM_SERVICE_NAME", Str("Laravel")))))
  {
    SettingsAt(env, hostname, 3);
    var app := AppSection(env);
    LookupSmall("appName", app[0].1, "appVersion", app[1].1, "", Null);
    GetSetting(env, hostname, "app", app, "appName");
  }

  /** With neither name variable set, the app is called "Laravel". */
  lemma DefaultAppName(env: Environment, hostname: Value)
    requires "APM_APPNAME" !in env && "ELASTIC_APM_SERVICE_NAME" !in env
    ensures Get(Repository(env, hostname), Key(["app", "appName"])) == Str("Laravel")
  {
    AppNameSetting(env, hostname);
    DefaultNameKept();
  }

  /** The server URL and secret token prefer the APM_* variable, then the ELASTIC_APM_* one, then the default. */
  lemma ServerSettings(env: Environment, hostname: Value)
    ensures Get(Repository(env, hostname), Key(["server", "serverUrl"]))
      == EnvFallback(env, "APM_SERVERURL", "ELASTIC_APM_SERVER_URL", Str("http://127.0.0.1:8200"))
    ensures Get(Repository(env, hostname), Key(["server", "secretToken"]))
      == EnvFallback(env, "APM_SECRETTOKEN", "ELASTIC_APM_SECRET_TOKEN", Null)
    ensures Get(Repository(env, hostname), Key(["server", "hostname"])) == Env(env, "ELASTIC_APM_HOSTNAME", hostname)
  {
    SettingsAt(env, hostname, 5);
    var server := ServerSection(env, hostname);
    LookupSmall("serverUrl", server[0].1, "secretToken", server[1].1, "hostname", server[2].1);
    GetSetting(env, hostname, "server", server, "serverUrl");
    GetSetting(env, hostname, "server", server, "secretToken");
    GetSetting(env, hostname, "server", server, "hostname");
  }

  /** active prefers APM_ACTIVE, then ELASTIC_APM_ENABLED, then true; cli.active is APM_ACTIVE_CLI, else true. */
  lemma ActiveSettings(env: Environment, hostname: Value)
    ensures Get(Repository(env, hostname), Key(["active"])) == EnvFallback(env, "APM_ACTIVE", "ELASTIC_APM_ENABLED", Bool(true))
    ensures Get(Repository(env, hostname), Key(["cli", "active"])) == Env(env, "APM_ACTIVE_CLI", Bool(true))
  {
    SettingsAt(env, hostname, 0);
    SettingsAt(env, hostname, 2);
    GetTopSetting(env, hostname, "active");
    var cli := CliSection(env);
    LookupCons("active", cli[0].1, [], "active");
    GetSetting(env, hostname, "cli", cli, "active");
  }

  /** With no variable set the agent is enabled, in the console too. */
  lemma EnabledByDefault(hostname: Value, console: bool)
    ensures !IsAgentDisabled(Repository(map[], hostname), console)
  {
    ActiveSettings(map[], hostname);
  }

  /** Span limits: maxTraceItems defaults to 1000 and backtraceDepth prefers APM_BACKTRACEDEPTH, then ELASTIC_APM_STACK_TRACE_LIMIT, then 25. */
  lemma SpanSettings(env: Environment, hostname: Value)
    ensures Get(Repository(env, hostname), Key(["spans", "maxTraceItems"])) == Env(env, "APM_MAXTRACEITEMS", Int(1000))
    ensures Get(Repository(env, hostname), Key(["spans", "backtraceDepth"]))
      == EnvFallback(env, "APM_BACKTRACEDEPTH", "ELASTIC_APM_STACK_TRACE_LIMIT", Int(25))
  {
    SettingsAt(env, hostname, 8);
    var spans := SpansSection(env);
    LookupSmall("maxTraceItems", spans[0].1, "backtraceDepth", spans[1].1, "querylog", spans[2].1);
    GetSetting(env, hostname, "spans", spans, "maxTraceItems");
    GetSetting(env, hostname, "spans", spans, "backtraceDepth");
  }

  /** The query log is on unless APM_QUERYLOG says otherwise, with a 200 ms threshold unless APM_THRESHOLD is set. */
  lemma QueryLogSettings(env: Environment, hostname: Value)
    ensures Get(Repository(env, hostname), Key(["spans", "querylog", "enabled"])) == Env(env, "APM_QUERYLOG", Bool(true))
    ensures Get(Repository(env, hostname), Key(["spans", "querylog", "threshold"])) == Env(env, "APM_THRESHOLD", Int(200))
  {
    var repo := Repository(env, hostname);
    var q := QueryLogSection(env);
    assert Get(repo, Key(["spans", "querylog"])) == Map(q) by {
      SettingsAt(env, hostname, 8);
      var spans := SpansSection(env);
      LookupSmall("maxTraceItems", spans[0].1, "backtraceDepth", spans[1].1, "querylog", spans[2].1);
      GetSetting(env, hostname, "spans", spans, "querylog");
    }
    LookupSmall("enabled", q[0].1, "threshold", q[1].1, "", Null);
    GetThirdLevel(repo, "spans", "querylog", q, "enabled");
    GetThirdLevel(repo, "spans", "querylog", q, "threshold");
  }

  /** The log level is APM_LOG_LEVEL, else "info"; the sample rate is ELASTIC_APM_TRANSACTION_SAMPLE_RATE, else 1. */
  lemma LogLevelAndSampleRate(env: Environment, hostname: Value)
    ensures Get(Repository(env, hostname), Key(["log-level"])) == Env(env, "APM_LOG_LEVEL", Str("info"))
    ensures Get(Repository(env, hostname), Key(["agent", "transactionSampleRate"]))
      == Env(env, "ELASTIC_APM_TRANSACTION_SAMPLE_RATE", Int(1))
  {
    SettingsAt(env, hostname, 1);
    GetTopSetting(env, hostname, "log-level");
    SettingsAt(env, hostname, 6);
    var agent := AgentSection(env);
    LookupCons("transactionSampleRate", agent[0].1, [], "transactionSampleRate");
    GetSetting(env, hostname, "agent", agent, "transactionSampleRate");
  }

  /** The environment whitelist is fixed; environment, useRouteUri and ignorePatterns default to development, true and null. */
  lemma EnvAndTransactionSettings(env: Environment, hostname: Value)
    ensures Get(Repository(env, hostname), Key(["env", "env"])) == List([Str("DOCUMENT_ROOT"), Str("REMOTE_ADDR")])
    ensures Get(Repository(env, hostname), Key(["env", "environment"])) == Env(env, "APM_ENVIRONMENT", Str("development"))
    ensures Get(Repository(env, hostname), Key(["transactions", "useRouteUri"])) == Env(env, "APM_USEROUTEURI", Bool(true))
    ensures Get(Repository(env, hostname), Key(["transactions", "ignorePatterns"])) == Env(env, "APM_IGNORE_PATTERNS", Null)
  {
    SettingsAt(env, hostname, 4);
    var e := EnvSection(env);
    LookupSmall("env", e[0].1, "environment", e[1].1, "", Null);
    GetSetting(env, hostname, "env", e, "env");
    GetSetting(env, hostname, "env", e, "environment");
    SettingsAt(env, hostname, 7);
    var t := TransactionsSection(env);
    LookupSmall("useRouteUri", t[0].1, "ignorePatterns", t[1].1, "", Null);
    GetSetting(env, hostname, "transactions", t, "useRouteUri");
    GetSetting(env, hostname, "transactions", t, "ignorePatterns");
  }

  /** The app, env and server sections are always arrays, so the agent configuration can always be assembled. */
  lemma SectionsAreArrays(env: Environment, hostname: Value, console: bool, frameworkVersion: string,
                          resolver: Option<string>)
    ensures AgentConfig(Repository(env, hostname), console, frameworkVersion, resolver).Ok?
  {
    SettingsAt(env, hostname, 3);
    SettingsAt(env, hostname, 4);
    SettingsAt(env, hostname, 5);
    GetTopSetting(env, hostname, "app");
    GetTopSetting(env, hostname, "env");
    GetTopSetting(env, hostname, "server");
  }
}
