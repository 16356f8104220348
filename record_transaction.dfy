/**
 * The HTTP middleware RecordTransaction: a transaction named "<METHOD> <uri>"
 * from the moment a request reaches the application, renamed after its route
 * and given the response's metadata once the application answered; on
 * terminate it is stopped and the collectors' spans are collected into it.
 */
module HttpMiddleware {
  import opened Php
  import opened LazySpans
  import opened SpanEmission
  import opened Agents

  /**
   * What the middleware reads from the request: the method, path() (absent
   * when the framework has none), the route's uri (when the request matched a
   * Route), the path part of REQUEST_URI, SCRIPT_FILENAME, and the values that
   * go into the user context.
   */
  datatype Request = Request(
    httpMethod: string,
    path: Option<string>,
    routeUri: Option<string>,
    requestUriPath: Option<string>,
    scriptFilename: string,
    userId: Value,
    ip: Value,
    userAgent: Value)

  /** The response: its status code and every header with all its values. */
  datatype Response = Response(status: int, headers: seq<(string, seq<string>)>)

  const Slash: set<char> := {'/'}

  /** normalizeUri: exactly one leading slash and no trailing one. */
  function NormalizeUri(uri: string): (r: string)
    ensures r != [] && r[0] == '/'
    ensures r[1..] == Trim(uri, Slash)
  {
    "/" + Trim(uri, Slash)
  }

  /** A normalized uri ends with a slash only when it is "/" itself, and holds no doubled slash at either end. */
  lemma NormalizedEnds(uri: string)
    ensures var r := NormalizeUri(uri);
      (r[|r| - 1] == '/' <==> r == "/")
      && (|r| > 1 ==> r[1] != '/')
  {
    TrimSpec(uri, Slash);
  }

  /** Normalizing twice is normalizing once. */
  lemma NormalizeIdempotent(uri: string)
    ensures NormalizeUri(NormalizeUri(uri)) == NormalizeUri(uri)
  {
    var t := Trim(uri, Slash);
    TrimSpec(uri, Slash);
    assert TrimLeft("/" + t, Slash) == TrimLeft(t, Slash) by {
      assert ("/" + t)[1..] == t;
    }
    TrimNoop(t, Slash);
  }

  /** Slashes around a uri do not change its transaction name: "/ping", "ping/" and "ping" are one transaction. */
  lemma NormalizeIgnoresSlashes(uri: string)
    ensures NormalizeUri("/" + uri) == NormalizeUri(uri)
    ensures NormalizeUri(uri + "/") == NormalizeUri(uri)
  {
    assert TrimLeft("/" + uri, Slash) == TrimLeft(uri, Slash) by {
      assert ("/" + uri)[1..] == uri;
    }
    TrimRightSlash(TrimLeft(uri, Slash));
    assert TrimLeft(uri + "/", Slash) == TrimLeft(uri, Slash) + "/" || TrimLeft(uri + "/", Slash) == "" by {
      TrimLeftAppend(uri);
    }
    if TrimLeft(uri + "/", Slash) == "" {
      TrimLeftAllSlashes(uri);
    } else {
      TrimRightSlash(TrimLeft(uri, Slash));
    }
  }

  /** One more trailing slash is stripped with the others. */
  lemma TrimRightSlash(s: string)
    ensures TrimRight(s + "/", Slash) == TrimRight(s, Slash)
  {
    assert (s + "/")[..|s|] == s;
  }

  /** ltrim of s + "/" either stops inside s, or eats all of it. */
  lemma {:induction false} TrimLeftAppend(s: string)
    ensures TrimLeft(s + "/", Slash) == TrimLeft(s, Slash) + "/" || TrimLeft(s + "/", Slash) == ""
    ensures TrimLeft(s + "/", Slash) == "" ==> TrimLeft(s, Slash) == ""
  {
    if s != [] && s[0] in Slash {
      assert (s + "/")[1..] == s[1..] + "/";
      TrimLeftAppend(s[1..]);
    } else if s == [] {
      assert TrimLeft("/", Slash) == TrimLeft("", Slash);
    }
  }

  /** When ltrim eats s + "/" entirely, it ate s entirely too. */
  lemma TrimLeftAllSlashes(s: string)
    requires TrimLeft(s + "/", Slash) == ""
    ensures TrimLeft(s, Slash) == ""
  {
    TrimLeftAppend(s);
  }

  /** getRequestUri: the path of REQUEST_URI, or the script file name when it has none. */
  function RequestUri(request: Request): string {
    request.requestUriPath.GetOr(request.scriptFilename)
  }

  /** getTransactionName: the method, a space and the normalized request path. */
  function TransactionName(request: Request): (r: string)
    ensures var k := |request.httpMethod| + 1;
      |r| > k && r[..k] == request.httpMethod + " " && r[k] == '/' && r[k + 1..] == Trim(request.path.GetOr(RequestUri(request)), Slash)
  {
    request.httpMethod + " " + NormalizeUri(request.path.GetOr(RequestUri(request)))
  }

  /** getRouteUriTransactionName: the method, a space and the normalized route uri (or request uri). */
  function RouteTransactionName(request: Request): (r: string)
    ensures var k := |request.httpMethod| + 1;
      |r| > k && r[..k] == request.httpMethod + " " && r[k] == '/' && r[k + 1..] == Trim(request.routeUri.GetOr(RequestUri(request)), Slash)
  {
    request.httpMethod + " " + NormalizeUri(request.routeUri.GetOr(RequestUri(request)))
  }

  /** Requests with the same method and paths equal up to surrounding slashes get the same transaction name. */
  lemma SameTransaction(request: Request, other: Request)
    requires request.httpMethod == other.httpMethod && request.path.Some? && other.path.Some?
    requires other.path.value == "/" + request.path.value + "/"
    ensures TransactionName(other) == TransactionName(request)
  {
    NormalizeIgnoresSlashes(request.path.value);
    NormalizeIgnoresSlashes("/" + request.path.value);
  }

  /**
   * shouldIgnoreTransaction: the configured pattern matches the name; a
   * missing or falsy pattern ignores nothing. `matches` is preg_match.
   */
  function ShouldIgnore(pattern: Option<string>, name: string, matches: (string, string) -> bool): (r: bool)
    ensures r <==> pattern.Some? && !FalsyString(pattern.value) && matches(pattern.value, name)
  {
    match pattern
    case None => false
    case Some(p) => !FalsyString(p) && matches(p, name)
  }

  /** formatHeaders: each header keeps only its first value (false when it has none). */
  function FormatHeaders(headers: seq<(string, seq<string>)>): (r: Assoc)
    ensures |r| == |headers|
    ensures forall i :: 0 <= i < |headers| ==>
      r[i] == (headers[i].0, if headers[i].1 == [] then Bool(false) else Str(headers[i].1[0]))
  {
    if headers == [] then []
    else
      var first := if headers[0].1 == [] then Bool(false) else Str(headers[0].1[0]);
      [(headers[0].0, first)] + FormatHeaders(headers[1..])
  }

  /** formatHeaders keeps the header names in their order. */
  lemma FormatHeadersKeys(headers: seq<(string, seq<string>)>)
    ensures Keys(FormatHeaders(headers)) == seq(|headers|, i requires 0 <= i < |headers| => headers[i].0)
  {
  }

  /**
   * The transaction once handle() is done with it: renamed after the route when
   * useRouteUri is truthy, with the response, the user context and the meta
   * addMetadata sets.
   */
  function Handled(t: Transaction, request: Request, response: Response, useRouteUri: Value): (r: Transaction)
    ensures r.event == t.event && r.context == t.context && r.stopMeta == t.stopMeta
    ensures r.name == if Truthy(useRouteUri) then RouteTransactionName(request) else t.name
  {
    t.(name := if Truthy(useRouteUri) then RouteTransactionName(request) else t.name,
       response := [("finished", Bool(true)), ("headers_sent", Bool(true)), ("status_code", Int(response.status)),
                    ("headers", Map(FormatHeaders(response.headers)))],
       userContext := [("id", request.userId), ("ip", request.ip), ("user-agent", request.userAgent)],
       meta := [("result", Int(response.status)), ("type", Str("HTTP"))])
  }

  /** The meta result and the response's status code are the response's status; the type is 'HTTP'. */
  lemma HandledMetadata(t: Transaction, request: Request, response: Response, useRouteUri: Value)
    ensures var r := Handled(t, request, response, useRouteUri);
      Lookup(r.meta, "result") == Some(Int(response.status)) && Lookup(r.meta, "type") == Some(Str("HTTP"))
      && Lookup(r.response, "status_code") == Some(Int(response.status))
      && Lookup(r.response, "headers") == Some(Map(FormatHeaders(response.headers)))
  {
    var h := Map(FormatHeaders(response.headers));
    var status := Int(response.status);
    LookupCons("headers", h, [], "headers");
    LookupCons("status_code", status, [("headers", h)], "headers");
    LookupCons("status_code", status, [("headers", h)], "status_code");
    LookupCons("headers_sent", Bool(true), [("status_code", status), ("headers", h)], "headers");
    LookupCons("headers_sent", Bool(true), [("status_code", status), ("headers", h)], "status_code");
    LookupCons("finished", Bool(true), [("headers_sent", Bool(true)), ("status_code", status), ("headers", h)], "headers");
    LookupCons("finished", Bool(true), [("headers_sent", Bool(true)), ("status_code", status), ("headers", h)], "status_code");
    LookupCons("result", status, [("type", Str("HTTP"))], "type");
  }

  class RecordTransaction {
    const agent: Agent
    /** transactions.useRouteUri */
    const useRouteUri: Value
    /** transactions.ignorePatterns */
    const ignorePattern: Option<string>
    /** preg_match(pattern, subject) */
    const matches: (string, string) -> bool

    constructor (agent: Agent, useRouteUri: Value, ignorePattern: Option<string>, matches: (string, string) -> bool)
      ensures this.agent == agent && this.useRouteUri == useRouteUri
      ensures this.ignorePattern == ignorePattern && this.matches == matches
    {
      this.agent := agent;
      this.useRouteUri := useRouteUri;
      this.ignorePattern := ignorePattern;
      this.matches := matches;
    }

    /**
     * handle: an ignored request only goes through the application. Otherwise a
     * transaction is started at the request time (REQUEST_TIME_FLOAT, or the
     * clock), the application produces `response`, and the transaction is
     * renamed and given the response's metadata. A taken name throws from
     * startTransaction before the application runs.
     */
    method Handle(request: Request, response: Response, id: string, traceId: string, requestTime: int)
      returns (r: Result<Response, AgentError>)
      modifies agent`client
      ensures old(agent.Valid()) ==> agent.Valid() && agent.Entries(agent.names) == old(agent.Entries(agent.names))
      ensures var name := TransactionName(request);
        if ShouldIgnore(ignorePattern, name, matches) then
          r == Ok(response) && agent.client == old(agent.client)
        else if name in old(agent.client.transactions) then
          r == Err(DuplicateTransaction(name))
          && agent.client == old(agent.client).(calls := old(agent.client.calls) + [StartCall(name)])
        else
          r == Ok(response)
          && agent.client == old(agent.client).(
            transactions := old(agent.client.transactions)[name :=
              Handled(Transaction(name, Parent(id, traceId, requestTime), [], [], [], [], [], None),
                      request, response, useRouteUri)],
            current := Some(name),
            calls := old(agent.client.calls) + [StartCall(name)])
    {
      var name := TransactionName(request);
      if ShouldIgnore(ignorePattern, name, matches) {
        return Ok(response);
      }
      r := Record(name, request, response, Parent(id, traceId, requestTime));
    }

    /** handle's work for a request that is not ignored. */
    method Record(name: string, request: Request, response: Response, event: Parent)
      returns (r: Result<Response, AgentError>)
      modifies agent`client
      ensures old(agent.Valid()) ==> agent.Valid() && agent.Entries(agent.names) == old(agent.Entries(agent.names))
      ensures name in old(agent.client.transactions) ==>
        r == Err(DuplicateTransaction(name))
        && agent.client == old(agent.client).(calls := old(agent.client.calls) + [StartCall(name)])
      ensures name !in old(agent.client.transactions) ==>
        r == Ok(response)
        && agent.client == old(agent.client).(
          transactions := old(agent.client.transactions)[name :=
            Handled(Transaction(name, event, [], [], [], [], [], None), request, response, useRouteUri)],
          current := Some(name),
          calls := old(agent.client.calls) + [StartCall(name)])
    {
      var started := agent.StartTransaction(name, [], event);
      if started.Err? {
        return Err(started.error);
      }
      ghost var c1 := agent.client;
      agent.UpdateTransaction(name, Handled(started.value, request, response, useRouteUri));
      assert agent.client == c1.(transactions := c1.transactions[name := Handled(started.value, request, response, useRouteUri)]);
      r := Ok(response);
    }

    /**
     * terminate: for a request that is not ignored, the transaction is stopped
     * and every collector's spans are collected into it. Whatever either call
     * throws is caught and its message logged (`logged`); nothing is sent here.
     */
    method Terminate(request: Request, maxTraceItems: Option<int>, clock: (string, nat) -> int)
      returns (logged: seq<AgentError>)
      requires agent.Valid()
      modifies agent`client, agent.repr
      ensures agent.Valid()
      ensures var name := TransactionName(request);
        ShouldIgnore(ignorePattern, name, matches) ==>
          logged == [] && agent.client == old(agent.client)
          && agent.Entries(agent.names) == old(agent.Entries(agent.names))
      ensures var name := TransactionName(request);
        !ShouldIgnore(ignorePattern, name, matches) && name !in old(agent.client.transactions) ==>
          logged == [UnknownTransaction(name)]
          && agent.client == old(agent.client).(calls := old(agent.client.calls) + [StopCall(name, [])])
          && agent.Entries(agent.names) == old(agent.Entries(agent.names))
      ensures var name := TransactionName(request);
        !ShouldIgnore(ignorePattern, name, matches) && name in old(agent.client.transactions) ==>
          var run := RunAll(EmissionsOf(old(agent.client.transactions)[name].event, old(agent.Entries(agent.names)),
                                        clock, maxTraceItems));
          agent.client == old(agent.client).(
            transactions := old(agent.client.transactions)[name := old(agent.client.transactions)[name].(stopMeta := Some([]))],
            calls := old(agent.client.calls) + [StopCall(name, [])] + [CollectCall(name)],
            events := old(agent.client.events) + run.events)
          && agent.Entries(agent.names) == Progressed(old(agent.Entries(agent.names)), clock, run.collected)
          && logged == (if run.failure.Some? then [run.failure.value] else [])
    {
      ghost var es := agent.Entries(agent.names);
      var name := TransactionName(request);
      if ShouldIgnore(ignorePattern, name, matches) {
        return [];
      }
      if name !in agent.client.transactions {
        // stopTransaction throws for a name it does not know; collectEvents is not reached
        var stopped := agent.StopTransaction(name, []);
        return [stopped.error];
      }
      var r := StopAndCollect(name, maxTraceItems, clock, es);
      logged := if r.Err? then [r.error] else [];
    }

    /**
     * terminate's try block for a name the agent knows: both calls happen, and
     * only collectEvents can throw.
     */
    method StopAndCollect(name: string, maxTraceItems: Option<int>, clock: (string, nat) -> int, ghost es: seq<Entry>)
      returns (r: Result<(), AgentError>)
      requires agent.Valid() && es == agent.Entries(agent.names) && name in agent.client.transactions
      modifies agent`client, agent.repr
      ensures agent.Valid()
      ensures var run := RunAll(EmissionsOf(old(agent.client.transactions)[name].event, es, clock, maxTraceItems));
        agent.client == old(agent.client).(
          transactions := old(agent.client.transactions)[name := old(agent.client.transactions)[name].(stopMeta := Some([]))],
          calls := old(agent.client.calls) + [StopCall(name, [])] + [CollectCall(name)],
          events := old(agent.client.events) + run.events)
        && agent.Entries(agent.names) == Progressed(es, clock, run.collected)
        && (run.failure.None? ==> r == Ok(()))
        && (run.failure.Some? ==> r == Err(run.failure.value))
    {
      var stopped := agent.StopTransaction(name, []);
      r := agent.CollectEvents(name, maxTraceItems, clock);
    }
  }
}
