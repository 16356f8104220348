# elastic-apm-laravel, modelled in Dafny

A model of the Laravel integration for the Elastic APM agent. The package
measures what happens in a Laravel application, as transactions and spans,
and sends the results to an APM server. The model covers the following parts.

- **Timeline engine.** `Timeline.TimelineCollector` holds named measures
  that are started, stopped, added and finally collected as spans. The
  spans carry millisecond offsets from the request start time.
  `EventDataCollector` and `TimelineDataCollector` run this same engine;
  they differ only in where their baseline comes from.
- **Event-driven collectors.** Each of these owns a timeline:
  - framework boot;
  - HTTP request;
  - database query;
  - job;
  - manual spans.
- **Transaction collectors.** The command and scheduled-task collectors
  open, describe, stop and send transactions through the agent.
- **HTTP and queued-job middlewares.**
- **The agent.** It holds a registry of collectors. Its `collectEvents`
  turns every collector's spans into `LazySpan` events, at most
  `maxTraceItems` per collector.
- **Supporting parts:**
  - the `EventCounter`;
  - the `RequestStartTime` value;
  - the `Apm\Span` timer span;
  - the collector and config facade services;
  - the service provider's registration and boot plan;
  - the package configuration file;
  - the stack-trace extractor.

Every state-changing class is a Dafny `class`. Each method is proved against
a pure specification function over a datatype snapshot: `StartSpec`,
`StopSpec` and `CollectSpec` for the timeline, and `RunAll`/`EmissionsOf`
for event collection. The properties the package promises are lemmas about
those functions.

Conventions:

- Time is an integer number of microseconds. Millisecond values are `real`.
  `Time.Round3` is PHP's `round($x, 3)`.
- Clock readings (`microtime`), environment variables, the host name, the
  memory reading and file contents are parameters.
- Log output is recorded in a ghost `log`, or returned as `logged`.
- The Nipwaayoni agent library is represented by a `Client` value. It holds
  the transactions, the current-transaction slot, the queued events and the
  calls made on it.

## Model

| member | source | states |
|---|---|---|
| Time.ToMilliseconds | src/Collectors/EventDataCollector.php:140-143 | converting seconds to milliseconds rounded to 3 decimals loses nothing for microsecond inputs: `ms * 1000` is exactly the microsecond count |
| Time.Round3Bounds | src/Apm/Span.php:42-51 | `round(x, 3)` has at most 3 decimals and is within 0.0005 of `x` |
| StartTime.RequestStartTime.constructor | src/Collectors/RequestStartTime.php:12-20 | the start time read back by `microseconds()` is the one given at construction |
| Counters.EventCounter.constructor | src/Collectors/EventCounter.php:10-13 | a new counter keeps the given limit and counts 0 |
| Counters.EventCounter.Default | src/Collectors/EventCounter.php:10-13 | the default limit is `EVENT_LIMIT` = 1000 |
| Counters.EventCounter.Limit | src/Collectors/EventCounter.php:15-18 | returns the limit; a null limit is a type error of the `int` return type |
| Counters.EventCounter.Count | src/Collectors/EventCounter.php:20-23 | returns the current count |
| Counters.EventCounter.Increment | src/Collectors/EventCounter.php:25-28 | the count grows by exactly one |
| Counters.EventCounter.Reset | src/Collectors/EventCounter.php:35-38 | the count returns to 0; with a positive limit the counter is then below its limit |
| Counters.CheckLimit | src/Collectors/EventCounter.php:30-33 | reached exactly when count >= limit; a null limit compares as reached, as PHP's `>=` against null does |
| Timeline.LabelFor | src/Collectors/EventDataCollector.php:72 | the label is the given label text unless that is falsy ("" or "0"), otherwise the measure name |
| Timeline.Without | src/Collectors/EventDataCollector.php:99 | removing a name from the started order keeps exactly the other names and keeps them distinct |
| Timeline.MakeSpan | src/Collectors/EventDataCollector.php:113-129 | the span starts at the start offset in milliseconds and start + duration is the end offset in milliseconds |
| Timeline.StartKeepsWellFormed | src/Collectors/EventDataCollector.php:57-77 | starting a measure keeps started names distinct and in step with the started map |
| Timeline.StopKeepsWellFormed | src/Collectors/EventDataCollector.php:90-108 | stopping a measure keeps the same invariant |
| Timeline.DuplicateStartIgnored | src/Collectors/EventDataCollector.php:65-69 | starting an already started measure changes nothing and logs exactly one warning |
| Timeline.ForcedSpansAt | src/Collectors/EventDataCollector.php:131-138 | the i-th span forced by `collect` is the i-th still-started measure finished at the i-th clock reading with an empty context |
| Timeline.StopAllKeys | src/Collectors/EventDataCollector.php:131-138 | stopping a set of started names leaves exactly the other measures started, unchanged and in their order |
| Timeline.StopAllLeaves | src/Collectors/EventDataCollector.php:131-138 | a measure not being stopped is still started with the same data |
| Timeline.StopAllSpans | src/Collectors/EventDataCollector.php:131-138 | forced stops append one span per stopped name, in order, after the existing spans |
| Timeline.CollectDrains | src/Collectors/EventDataCollector.php:131-138 | after `collect` no measure is left started |
| Timeline.CollectAppends | src/Collectors/EventDataCollector.php:131-138 | `collect` keeps every finished span and appends one forced span per started measure, in start order |
| Timeline.CollectTwice | src/Collectors/EventDataCollector.php:131-138 | a second `collect` adds nothing, whatever the clock reads |
| Timeline.FixedStartScenario | tests/unit/Collectors/EventDataCollectorTest.php:78-101 | request start 1000 s, measure at 1500 s, collected at 1900 s: one span with start 500000.0 ms and duration 400000.0 ms |
| Timeline.ZeroBaselineScenario | tests/Collectors/TimelineDataCollectorTest.php:36-55 | with a zero baseline a measure started at 1000 s starts at 1000000.0 ms |
| Timeline.TimelineCollector.FromStartTime | src/Collectors/EventDataCollector.php:37-47 | a new collector is empty, has no warnings and measures against the request start time |
| Timeline.TimelineCollector.FromAgent | src/Collectors/TimelineDataCollector.php:32-43 | the timeline collector measures against the agent's request start time, under the name "timeline" |
| Timeline.TimelineCollector.GetName | src/Collectors/TimelineDataCollector.php:45-48 | returns the collector's fixed name |
| Timeline.TimelineCollector.StartMeasure | src/Collectors/EventDataCollector.php:57-77 | a new name is started with its label, start offset (given start or now, minus baseline), type and action; a started name is left alone with one warning logged |
| Timeline.TimelineCollector.HasStartedMeasure | src/Collectors/EventDataCollector.php:82-85 | true exactly when the name is started |
| Timeline.TimelineCollector.StopMeasure | src/Collectors/EventDataCollector.php:90-108 | a started measure is removed and becomes a span with the given context; an unknown name only logs a warning |
| Timeline.TimelineCollector.AddMeasure | src/Collectors/EventDataCollector.php:113-129 | appends one finished span, with defaults type "request", action "request" and empty context; started measures are untouched |
| Timeline.TimelineCollector.Collect | src/Collectors/EventDataCollector.php:131-138 | stops every started measure in start order, then returns all spans, matching `CollectSpec` |
| Php.Keys | src/Events/LazySpan.php:126-129 | the key list of a PHP array lists each entry's key in order |
| Php.Lookup | src/Events/LazySpan.php:126-129 | a key is found exactly when it is among the keys, with the value stored at it |
| Php.PutLookup | src/Services/ApmConfigService.php:51-53 | after `$a[k] = v`, k reads v and other keys read as before |
| Php.PutKeys | src/Services/ApmConfigService.php:51-53 | assignment to a new key appends it; to an existing key keeps the order |
| Php.PutUnique | src/Services/ApmConfigService.php:51-53 | assignment keeps keys unique |
| Php.MergeLookup | src/Events/LazySpan.php:126-129 | in `array_merge(a, b)` a key of b reads b's value, any other key reads a's |
| Php.MergeKeepsOrder | src/Events/LazySpan.php:126-129 | `array_merge` keeps a's keys first and in their order |
| Php.MergeUnique | src/Events/LazySpan.php:126-129 | `array_merge` keeps keys unique |
| Php.FilterLookup | src/ServiceProvider.php:228-240 | `array_filter` keeps exactly the entries with truthy values |
| Php.FilterAllTruthy | src/ServiceProvider.php:228-240 | every value left by `array_filter` is truthy |
| Php.TrimSpec | src/Events/LazySpan.php:73 | `trim` returns the middle slice of its input, with only trimmed characters cut from either end and none left at the ends |
| Php.TrimNoop | src/Events/LazySpan.php:110-121 | trimming a string with no trimmable character at either end returns it unchanged |
| Php.Join | src/Collectors/DBQueryCollector.php:83 | `implode` of nothing is "" and of one part is that part |
| LazySpans.LazySpan.constructor | src/Events/LazySpan.php:69-76 | a new span has the trimmed name, type "request", duration 0, empty custom/labels contexts and the parent's timestamp |
| LazySpans.LazySpan.GetName | src/Events/LazySpan.php:81-84 | returns the trimmed name |
| LazySpans.LazySpan.SetStartTime | src/Events/LazySpan.php:91-95 | records the start and moves the timestamp by start * 1000; nothing else changes |
| LazySpans.LazySpan.SetDuration | src/Events/LazySpan.php:102-105 | only the duration changes |
| LazySpans.LazySpan.SetAction | src/Events/LazySpan.php:110-113 | only the action changes, to the trimmed text |
| LazySpans.LazySpan.SetType | src/Events/LazySpan.php:118-121 | only the type changes, to the trimmed text |
| LazySpans.LazySpan.SetContext | src/Events/LazySpan.php:126-129 | the contexts become `array_merge` of the old contexts and the given ones |
| LazySpans.LazySpan.SetStacktrace | src/Events/LazySpan.php:136-139 | only the stack trace changes |
| LazySpans.LazySpan.JsonSerialize | src/Events/LazySpan.php:146-165 | transaction id and parent id are both the parent's id, sync is true, and id, name, timestamp and context are the span's own |
| SpanEmission.Take | src/Agent.php:89 | `take(n)` keeps the first n spans, the last -n for negative n, and all for a null limit |
| SpanEmission.EmitCopies | src/Agent.php:90-97 | a measure becomes an event carrying its trimmed label, type and action, merged context, start, duration and parent-relative timestamp; a null action or context is a type error |
| SpanEmission.EmittedContext | src/Agent.php:93 | an event's context reads the measure's value for the measure's keys and the default custom/labels for the rest |
| SpanEmission.Outcomes | src/Agent.php:89-98 | one outcome per handed span, in order |
| SpanEmission.GatherSticks | src/Agent.php:89-98 | once a span fails, later spans of that collector are not emitted |
| SpanEmission.GatherComplete | src/Agent.php:89-98 | when every span converts, every event is queued in order |
| SpanEmission.GatherFailure | src/Agent.php:89-98 | the first failing span stops emission with its error after exactly the spans before it |
| SpanEmission.EmitAll | src/Agent.php:89-98 | spans with action and context all become events |
| SpanEmission.RunAll | src/Agent.php:88-99 | collection stops at the first collector that fails; without failure every collector is collected |
| SpanEmission.RunAllSticks | src/Agent.php:88-99 | after a failing collector no later collector is touched |
| SpanEmission.RunAllComplete | src/Agent.php:88-99 | without failures the queued events are all collectors' events together |
| SpanEmission.EmissionsOf | src/Agent.php:88-99 | the emission of each registered collector, in registration order |
| SpanEmission.Progressed | src/Agent.php:88-99 | the first k collectors have been collected and the rest are untouched |
| SpanEmission.PerCollectorCap | src/Agent.php:89 | each collector hands over at most `maxTraceItems` spans |
| SpanEmission.CollectIdle | src/Collectors/EventDataCollector.php:131-138 | collecting with nothing started returns exactly the finished spans |
| SpanEmission.IdleEmission | src/Agent.php:89-98 | a collector with at most 1000 complete spans emits all of them |
| SpanEmission.ThreePlusFive | tests/unit/AgentTest.php:136-168 | two collectors with 3 and 5 spans put 8 events on the connector |
| SpanEmission.Describe | src/Agent.php:91-93 | sets trimmed type and action and merges the context, nothing else |
| SpanEmission.Place | src/Agent.php:94-95 | sets start, timestamp and duration, nothing else |
| SpanEmission.Fill | src/Agent.php:90-95 | the event built step by step equals the specified `Built` state |
| SpanEmission.BuildEvent | src/Agent.php:90-95 | the event built from a measure is `Emit`, including the null-action and null-context errors |
| Agents.AddConsistent | src/Agent.php:70-76 | `put` by name keeps the registry keyed by each collector's own name, without duplicates |
| Agents.FiledApart | src/Agent.php:70-76 | distinct registered names hold distinct collectors |
| Agents.NamesOf | src/Agent.php:72-74 | the registry key of each collector is its `getName()` |
| Agents.AddAllFresh | src/Agent.php:70-76 | adding collectors with fresh distinct names appends their names in order |
| Agents.RegisteredNames | src/Agent.php:51-68 | the query collector is registered unless querylog is `false`, the request collector only outside the CLI, then job and span collectors |
| Agents.Agent.constructor | src/Agent.php:35-39 | a new agent has no collectors, the given start time and an empty client |
| Agents.Agent.AddCollector | src/Agent.php:70-76 | the registry becomes `Add(old, c)`: put under the collector's name, replacing any holder |
| Agents.Agent.GetCollector | src/Agent.php:78-81 | returns the registered collector; an unknown name is a type error of the return type |
| Agents.Agent.RegisterInitCollectors | src/Agent.php:41-49 | outside the CLI the framework collector is added; in the CLI nothing changes |
| Agents.Agent.RegisterCollectors | src/Agent.php:51-68 | adds exactly the selected collectors, in source order |
| Agents.Agent.SetRequestStartTime | src/Agent.php:102-105 | stores the start time |
| Agents.Agent.GetRequestStartTime | src/Agent.php:107-110 | returns the stored start time |
| Agents.Agent.StartTransaction | src/Middleware/RecordTransaction.php:116-123 | a new name becomes an empty transaction and the current one; a known name is a duplicate error that changes nothing else |
| Agents.Agent.GetTransaction | src/Agent.php:87 | returns the named transaction or an unknown-transaction error |
| Agents.Agent.StopTransaction | src/Middleware/RecordTransaction.php:96-99 | records the stop metadata on a known transaction; an unknown name is an error |
| Agents.Agent.UpdateTransaction | src/Middleware/RecordTransaction.php:57-61 | replaces the named transaction, nothing else |
| Agents.Agent.HasCurrentTransaction | tests/unit/AgentTest.php:85-95 | true exactly when a current transaction is set |
| Agents.Agent.SetCurrentTransaction | tests/unit/AgentTest.php:97-107 | sets the current transaction, nothing else |
| Agents.Agent.ClearCurrentTransaction | tests/unit/AgentTest.php:125-134 | clears the current transaction, nothing else |
| Agents.Agent.CurrentTransaction | src/Services/ApmAgentService.php:32-38 | returns the current transaction's name, or the no-current-transaction error |
| Agents.Agent.Send | src/ServiceProvider.php:117-122 | a delivered send empties the event queue and clears the current transaction; a rejected or broken send raises and keeps both |
| Agents.Agent.CaptureThrowable | src/Services/ApmCollectorService.php:85-92 | records the captured throwable, nothing else |
| Agents.Agent.PutEvents | src/Agent.php:89-98 | queues the gathered events of one collector's spans and reports its failure |
| Agents.Agent.EmitCollector | src/Agent.php:89-98 | collects one collector (its state becomes `Advance`) and queues its emission |
| Agents.Agent.CollectStep | src/Agent.php:88-99 | collects the i-th registered collector and leaves the others' states unchanged |
| Agents.Agent.CollectAll | src/Agent.php:88-99 | queues `RunAll(EmissionsOf(...))` and leaves exactly the collected collectors advanced |
| Agents.Agent.CollectEvents | src/Agent.php:83-100 | for a known transaction, queues every collector's capped spans as events in registration order and stops at the first failure; an unknown transaction is an error and collects nothing |
| DbQueries.QueryName | src/Collectors/DBQueryCollector.php:73-90 | "TYPE table1, table2" when the splitter finds a type and tables, otherwise "Eloquent Query" |
| DbQueries.QueryRecorded | src/Collectors/DBQueryCollector.php:26-59 | an admitted query appends one span ending now, lasting the query time, named by `QueryName`, type "db.mysql.query", action "query" and a db statement context |
| DbQueries.AdmissionRule | src/Collectors/DBQueryCollector.php:28-32 | only querylog 'auto' drops queries, and only those strictly faster than the threshold |
| DbQueries.FastQueryDropped | tests/unit/Collectors/DBQueryCollectorTest.php:100-122 | in 'auto' mode a 500 ms query under a 1000 ms threshold is not recorded |
| DbQueries.DbQueryCollector.constructor | src/Collectors/DBQueryCollector.php:61-64 | a fresh empty timeline named "query-collector" |
| DbQueries.DbQueryCollector.GetName | src/Collectors/DBQueryCollector.php:61-64 | "query-collector" |
| DbQueries.DbQueryCollector.OnQueryExecuted | src/Collectors/DBQueryCollector.php:26-59 | the timeline becomes `QuerySpec` and no warning is logged |
| HttpRequests.Controller | src/Collectors/HttpRequestCollector.php:49-71 | the controller label for each shape of route action, and none for no route or other arrays |
| HttpRequests.FullRequest | src/Collectors/HttpRequestCollector.php:32-46 | booted, route matched and handled leave no measure open and two spans: "Route matching" and the request handled span labelled by its controller |
| HttpRequests.HandledWithoutMatch | src/Collectors/HttpRequestCollector.php:44-46 | a handled event without a matched route changes nothing and logs one warning |
| HttpRequests.HttpRequestCollector.constructor | src/Collectors/HttpRequestCollector.php:25-28 | a fresh empty timeline named "request-collector" |
| HttpRequests.HttpRequestCollector.GetName | src/Collectors/HttpRequestCollector.php:25-28 | "request-collector" |
| HttpRequests.HttpRequestCollector.Booted | src/Collectors/HttpRequestCollector.php:32-36 | outside the CLI starts "route_matching"; in the CLI nothing |
| HttpRequests.HttpRequestCollector.RouteMatched | src/Collectors/HttpRequestCollector.php:39-42 | starts "request_handled" labelled by the controller, then stops "route_matching" |
| HttpRequests.HttpRequestCollector.RequestHandled | src/Collectors/HttpRequestCollector.php:44-46 | stops "request_handled" |
| FrameworkBoot.FullBoot | src/Collectors/FrameworkCollector.php:33-44 | construction, booting and booted leave no measure open and two spans: "App boot" from LARAVEL_START and "Laravel boot" |
| FrameworkBoot.BootedGuard | src/Collectors/FrameworkCollector.php:40-44 | booted without a running "laravel_boot" changes nothing |
| FrameworkBoot.FrameworkCollector.constructor | src/Collectors/FrameworkCollector.php:33 | the new timeline already runs "app_boot" from LARAVEL_START |
| FrameworkBoot.FrameworkCollector.GetName | src/Collectors/FrameworkCollector.php:23-26 | "framework-collector" |
| FrameworkBoot.FrameworkCollector.Booting | src/Collectors/FrameworkCollector.php:35-38 | starts "laravel_boot", then stops "app_boot" |
| FrameworkBoot.FrameworkCollector.Booted | src/Collectors/FrameworkCollector.php:40-44 | stops "laravel_boot" if it runs |
| JobEvents.ProcessingThenProcessed | src/Collectors/JobCollector.php:35-43 | processing then processed appends one "Job processing" span and leaves other measures as they were |
| JobEvents.SecondProcessingIgnored | src/Collectors/JobCollector.php:35-37 | a second processing event while one runs changes nothing and logs one warning |
| JobEvents.JobCollector.constructor | src/Collectors/JobCollector.php:28-31 | a fresh empty timeline named "job-collector" |
| JobEvents.JobCollector.GetName | src/Collectors/JobCollector.php:28-31 | "job-collector" |
| JobEvents.JobCollector.JobProcessing | src/Collectors/JobCollector.php:35-37 | starts "job_processing" |
| JobEvents.JobCollector.JobProcessed | src/Collectors/JobCollector.php:39-43 | stops "job_processing" if it runs |
| ManualSpans.StartThenStop | src/Collectors/SpanCollector.php:31-46 | a started then stopped measure appends one span with its label, type, action and the stop parameters as context |
| ManualSpans.UnknownStopInert | src/Collectors/SpanCollector.php:42-46 | stopping a measure that is not running changes nothing |
| ManualSpans.SpanCollector.constructor | src/Collectors/SpanCollector.php:24-27 | a fresh empty timeline named "span-collector" |
| ManualSpans.SpanCollector.GetName | src/Collectors/SpanCollector.php:24-27 | "span-collector" |
| ManualSpans.SpanCollector.OnStartMeasuring | src/Collectors/SpanCollector.php:31-40 | starts the event's measure, at its own start time when given |
| ManualSpans.SpanCollector.OnStopMeasuring | src/Collectors/SpanCollector.php:42-46 | stops the event's measure with its parameters, if running |
| JobMiddleware.WrappedSpan | src/Jobs/Middleware/RecordTransaction.php:25-33 | a job run appends one "<class> processing" span of type "job" from start to end |
| JobMiddleware.ThrownJobStaysOpen | src/Jobs/Middleware/RecordTransaction.php:25-33 | if the job throws, its measure stays open and no span is added |
| JobMiddleware.Handle | src/Jobs/Middleware/RecordTransaction.php:18-34 | disabled: runs the job unmeasured; enabled: measures the job around it and returns null, or rethrows leaving the measure open |
| ApmSpans.SpanCollection.constructor | src/Apm/Span.php:24-30 | an empty collection |
| ApmSpans.SpanCollection.Push | src/Apm/Span.php:42-51 | appends one record |
| ApmSpans.Span.constructor | src/Apm/Span.php:19-30 | name "Transaction Span", type "app.span", start at the timer's elapsed time |
| ApmSpans.Span.SetName | src/Apm/Span.php:32-35 | sets the name |
| ApmSpans.Span.SetType | src/Apm/Span.php:37-40 | sets the type |
| ApmSpans.Span.End | src/Apm/Span.php:42-51 | pushes exactly one record after the existing ones, with the span's name, type and start and a duration that is the elapsed difference rounded to 3 decimals |
| CollectorService.ApmCollectorService.constructor | src/Services/ApmCollectorService.php:34-42 | disabled exactly when `active` is false, or in the console when `cli.active` is false |
| CollectorService.ApmCollectorService.StartMeasure | src/Services/ApmCollectorService.php:44-60 | dispatches one StartMeasuring event with the given arguments, enabled or not |
| CollectorService.ApmCollectorService.StopMeasure | src/Services/ApmCollectorService.php:62-72 | dispatches one StopMeasuring event, enabled or not |
| CollectorService.ApmCollectorService.AddCollector | src/Services/ApmCollectorService.php:74-83 | adds the collector to the agent unless disabled |
| CollectorService.ApmCollectorService.CaptureThrowable | src/Services/ApmCollectorService.php:85-92 | hands the throwable to the agent unless disabled |
| ConfigService.GetDefault | src/Services/ApmConfigService.php:20-23 | the default is returned exactly when the key is missing |
| ConfigService.GetNested | src/Services/ApmConfigService.php:20-23 | a dotted key reads the same as reading its prefix, then the rest |
| ConfigService.GetBelow | src/Services/ApmConfigService.php:20-23 | a key one level under an array reads that array's entry |
| ConfigService.GetInPackage | src/Services/ApmConfigService.php:20-23 | reading `elastic-apm-laravel.x` or `.x.y` reads the package's own settings |
| ConfigService.OnlyFalseDisables | src/Services/ApmConfigService.php:25-29 | only the boolean `false` disables: null, "" and 0 do not |
| ConfigService.IsAgentDisabled | src/Services/ApmConfigService.php:25-29 | disabled exactly when `active` is false, or in the console when `cli.active` is false |
| ConfigService.Section | src/Services/ApmConfigService.php:31-46 | a config section is usable by `array_merge` exactly when it is an array |
| ConfigService.AppConfig | src/Services/ApmConfigService.php:48-56 | an array is returned exactly when the app section is an array, or is null or false with a resolver bound; in that second case it is the one-entry array `[appVersion => version]` |
| ConfigService.AppVersionOverride | src/Services/ApmConfigService.php:48-56 | a bound version resolver overrides `appVersion` and nothing else |
| ConfigService.AgentConfig | src/Services/ApmConfigService.php:31-46 | the agent configuration exists exactly when getAppConfig returns an array and the env and server sections are arrays |
| ConfigService.AgentBaseEntries | src/Services/ApmConfigService.php:31-46 | the base entries are framework, framework version, active and http client, in that order |
| ConfigService.AgentConfigPrecedence | src/Services/ApmConfigService.php:31-46 | server settings win over env, env over app, app over the base entries |
| ConfigService.ActiveHoldsDisabled | src/Services/ApmConfigService.php:39 | the `active` entry holds `isAgentDisabled()`, as written (see Left out) |
| Commands.SendLog | src/Collectors/CommandCollector.php:78-87 | a delivered send logs nothing; a rejected send logs the client exception with its response body; a broken send logs the throwable |
| Commands.TransactionName | src/Collectors/CommandCollector.php:94-103 | the command name unless it is missing or ignored, then "" |
| Commands.RecordedCommands | src/Collectors/CommandCollector.php:26-41 | a transaction is opened exactly for a present, non-ignored, non-empty command name |
| Commands.WithMetadata | src/Collectors/CommandCollector.php:105-124 | metadata changes neither name, event, context nor stop data |
| Commands.CommandMetadata | src/Collectors/CommandCollector.php:105-124 | meta type "command", the runner as user name (null without one), custom context keys ran_at then memory |
| Commands.StopMeta | src/Collectors/CommandCollector.php:71-76 | the stop metadata is exactly `result` = exit code |
| Commands.CommandCollector.constructor | src/Collectors/CommandCollector.php:19-22 | keeps the agent and the ignore rule |
| Commands.CommandCollector.GetName | src/Collectors/CommandCollector.php:19-22 | "command-collector" |
| Commands.CommandCollector.OnCommandStarting | src/Collectors/CommandCollector.php:26-41 | opens a transaction for a recordable, unknown command name, with metadata, as the current one; otherwise nothing |
| Commands.CommandCollector.AddMetadata | src/Collectors/CommandCollector.php:105-124 | replaces the transaction with its metadata-enriched form |
| Commands.CommandCollector.OnCommandFinished | src/Collectors/CommandCollector.php:43-55 | for a running command transaction: stop with the exit code, collect, and on success send and log a send failure |
| Commands.CommandCollector.StopAndSend | src/Collectors/CommandCollector.php:49-54 | stop and collect, then send unless collecting failed |
| Commands.CommandCollector.StopTransaction | src/Collectors/CommandCollector.php:71-76 | stops with `result` = exit code and collects the transaction's events |
| Commands.CommandCollector.Send | src/Collectors/CommandCollector.php:78-87 | sends, catching and logging the client's failure |
| ScheduledTasks.TaskName | src/Collectors/ScheduledTaskCollector.php:93-100 | a callback task's summary or a task's command, unless ignored, then "" |
| ScheduledTasks.FalsyTasksUnrecorded | src/Collectors/ScheduledTaskCollector.php:28-37 | a task without a name is never recorded |
| ScheduledTasks.ExitResult | src/Collectors/ScheduledTaskCollector.php:39-58 | the task's exit code, or 0 when it has none |
| ScheduledTasks.WithTaskMetadata | src/Collectors/ScheduledTaskCollector.php:102-114 | metadata changes neither name, event, context, user context nor stop data |
| ScheduledTasks.TaskMetadata | src/Collectors/ScheduledTaskCollector.php:102-114 | meta type "scheduled-task", custom context keys ran_at then memory, ran_at holding the run time |
| ScheduledTasks.ScheduledTaskCollector.constructor | src/Collectors/ScheduledTaskCollector.php:21-24 | keeps the agent and the ignore rule |
| ScheduledTasks.ScheduledTaskCollector.GetName | src/Collectors/ScheduledTaskCollector.php:21-24 | "scheduled-task-collector" |
| ScheduledTasks.ScheduledTaskCollector.OnTaskStarting | src/Collectors/ScheduledTaskCollector.php:28-37 | opens a transaction for a recordable, unknown task name as the current one; otherwise nothing |
| ScheduledTasks.ScheduledTaskCollector.AddMetadata | src/Collectors/ScheduledTaskCollector.php:102-114 | replaces the transaction with its metadata-enriched form |
| ScheduledTasks.ScheduledTaskCollector.OnTaskSkipped | src/Collectors/ScheduledTaskCollector.php:39-47 | for a running task transaction: stop and collect, without sending |
| ScheduledTasks.ScheduledTaskCollector.OnTaskFinished | src/Collectors/ScheduledTaskCollector.php:49-58 | for a running task transaction: stop, collect, and on success send |
| ScheduledTasks.ScheduledTaskCollector.StopAndSend | src/Collectors/ScheduledTaskCollector.php:54-57 | stop and collect, then send unless collecting failed |
| ScheduledTasks.ScheduledTaskCollector.StopTransaction | src/Collectors/ScheduledTaskCollector.php:70-75 | stops with `result` = exit code (0 without one) and collects |
| ScheduledTasks.ScheduledTaskCollector.Send | src/Collectors/ScheduledTaskCollector.php:77-86 | sends, catching and logging the client's failure |
| HttpMiddleware.NormalizeUri | src/Middleware/RecordTransaction.php:150-154 | the result is "/" followed by the URI with slashes trimmed from both ends |
| HttpMiddleware.NormalizedEnds | src/Middleware/RecordTransaction.php:150-154 | a normalized URI ends in "/" only when it is "/", and never starts with "//" |
| HttpMiddleware.NormalizeIdempotent | src/Middleware/RecordTransaction.php:150-154 | normalizing twice equals normalizing once |
| HttpMiddleware.NormalizeIgnoresSlashes | src/Middleware/RecordTransaction.php:150-154 | a leading or trailing slash does not change the normalized URI |
| HttpMiddleware.TransactionName | src/Middleware/RecordTransaction.php:125-130 | "METHOD /path" with the path's slashes trimmed, falling back to the request URI |
| HttpMiddleware.RouteTransactionName | src/Middleware/RecordTransaction.php:132-142 | "METHOD /route-uri", falling back to the request URI without a route |
| HttpMiddleware.SameTransaction | src/Middleware/RecordTransaction.php:125-130 | "/a/" and "a" name the same transaction |
| HttpMiddleware.ShouldIgnore | src/Middleware/RecordTransaction.php:105-110 | ignored exactly when a truthy pattern is set and it matches |
| HttpMiddleware.FormatHeaders | src/Middleware/RecordTransaction.php:156-161 | each header keeps its name and its first value, `false` when it has none |
| HttpMiddleware.FormatHeadersKeys | src/Middleware/RecordTransaction.php:156-161 | the formatted headers keep the header names in order |
| HttpMiddleware.Handled | src/Middleware/RecordTransaction.php:57-61 | with useRouteUri the transaction is renamed by route; event, context and stop data are kept |
| HttpMiddleware.HandledMetadata | src/Middleware/RecordTransaction.php:66-86 | meta result is the status code and type "HTTP"; the response holds the status code and the formatted headers |
| HttpMiddleware.RecordTransaction.constructor | src/Middleware/RecordTransaction.php:42-64 | keeps the agent, route-URI setting, ignore pattern and matcher |
| HttpMiddleware.RecordTransaction.Handle | src/Middleware/RecordTransaction.php:42-64 | an ignored request passes through untouched; otherwise a transaction is started and described with the response, or the duplicate error is raised |
| HttpMiddleware.RecordTransaction.Record | src/Middleware/RecordTransaction.php:52-61 | starts the transaction and stores its handled form |
| HttpMiddleware.RecordTransaction.Terminate | src/Middleware/RecordTransaction.php:88-103 | for a non-ignored request: stop and collect the transaction, logging any error instead of raising it |
| HttpMiddleware.RecordTransaction.StopAndCollect | src/Middleware/RecordTransaction.php:96-99 | stop then collect events for a known transaction |
| Provider.CounterLimit | src/ServiceProvider.php:98-102 | the counter limit is `spans.maxTraceItems`, or 1000 when it is not configured |
| Provider.CollectorNamesDistinct | src/ServiceProvider.php:145-173 | the six collector names are pairwise distinct |
| Provider.TaggedPositions | src/ServiceProvider.php:145-173 | the tagged collectors follow source order for each console/querylog combination |
| Provider.CollectorSelection | src/ServiceProvider.php:145-173 | framework and request collectors only outside the console, command collector only in it, query collector unless querylog is false, always job then span last |
| Provider.TaggedOnce | src/ServiceProvider.php:145-173 | no collector is tagged twice |
| Provider.TagAll | src/ServiceProvider.php:145-173 | one tag binding per collector, in order |
| Provider.TagsAppend | src/ServiceProvider.php:112 | tags of two binding lists are the tags of each, concatenated |
| Provider.TagsOfTagAll | src/ServiceProvider.php:112 | the tagged collectors are read back in the order they were tagged |
| Provider.DisabledRegistrations | src/ServiceProvider.php:34-53 | a disabled agent registers only the two facades and tags no collector |
| Provider.EnabledRegistrations | src/ServiceProvider.php:34-53 | an enabled agent registers the counter, the agent and the terminating send, and tags exactly the selected collectors |
| Provider.BootPlan | src/ServiceProvider.php:59-77 | boot publishes the config; when enabled it prepends the middleware, and in the console also makes the agent |
| Provider.ServiceProvider.constructor | src/ServiceProvider.php:25-29 | no bindings and no boot steps yet |
| Provider.ServiceProvider.Register | src/ServiceProvider.php:34-53 | appends exactly `Registrations` |
| Provider.ServiceProvider.RegisterAgent | src/ServiceProvider.php:96-123 | appends the counter singleton with its limit, the agent singleton and the terminating send |
| Provider.ServiceProvider.RegisterCollectors | src/ServiceProvider.php:145-173 | appends exactly the collector bindings |
| Provider.ServiceProvider.Boot | src/ServiceProvider.php:59-77 | appends exactly `BootSteps` |
| Provider.DefaultServiceName | src/ServiceProvider.php:222-225 | a truthy service name: the configured app name if truthy, otherwise "Laravel" |
| Provider.ProviderBase | src/ServiceProvider.php:229-237 | the seven base entries, with unique keys, in source order |
| Provider.AgentSettings | src/ServiceProvider.php:228-240 | the agent settings exist exactly when getAppConfig returns an array and the server section is an array |
| Provider.AgentSettingsTruthy | src/ServiceProvider.php:228-240 | no null or other falsy setting reaches the agent |
| Provider.AgentSettingsLookup | src/ServiceProvider.php:228-240 | server wins over app, app over the base entries, and falsy results are dropped |
| Provider.ServiceNameAlwaysSet | src/ServiceProvider.php:222-240 | `defaultServiceName` is always passed to the agent |
| PackageConfig.EnvFallback | config/elastic-apm-laravel.php:5 | the first variable if set, else the second, else the default |
| PackageConfig.Utf8Width | config/elastic-apm-laravel.php:16 | a character takes one byte exactly when it is ASCII, and at most four |
| PackageConfig.Sanitize | config/elastic-apm-laravel.php:16 | the result holds only letters, digits, space, `_` and `-`, and is as long as the input's UTF-8 encoding |
| PackageConfig.SanitizeAppend | config/elastic-apm-laravel.php:16 | the replacement works piece by piece: sanitizing a concatenation concatenates the sanitized parts |
| PackageConfig.SanitizeAscii | config/elastic-apm-laravel.php:16 | on ASCII input each character is kept or becomes one `-`, and the length is kept |
| PackageConfig.SanitizeKeeps | config/elastic-apm-laravel.php:16 | a name of allowed characters only is unchanged |
| PackageConfig.SanitizeIdempotent | config/elastic-apm-laravel.php:16 | sanitizing a sanitized name again changes nothing |
| PackageConfig.WideCharPerByte | config/elastic-apm-laravel.php:16 | the pattern has no `u` modifier, so a two-byte character becomes two dashes: "Café" is sent as "Caf--" |
| PackageConfig.DefaultNameKept | config/elastic-apm-laravel.php:16 | the default "Laravel" passes unchanged |
| PackageConfig.Layout | config/elastic-apm-laravel.php:3-67 | the top-level keys, in file order |
| PackageConfig.GetSetting | config/elastic-apm-laravel.php:3-67 | a section entry reads back through the config repository |
| PackageConfig.GetTopSetting | config/elastic-apm-laravel.php:3-67 | a top-level entry reads back through the config repository |
| PackageConfig.AppNameSetting | config/elastic-apm-laravel.php:16 | `app.appName` is the sanitized APM_APPNAME, else ELASTIC_APM_SERVICE_NAME, else "Laravel" |
| PackageConfig.DefaultAppName | config/elastic-apm-laravel.php:16 | without either variable the app name is "Laravel" |
| PackageConfig.ServerSettings | config/elastic-apm-laravel.php:30-39 | server URL, secret token and host name with their fallbacks and defaults |
| PackageConfig.ActiveSettings | config/elastic-apm-laravel.php:5-12 | `active` and `cli.active` with their variables and default true |
| PackageConfig.EnabledByDefault | config/elastic-apm-laravel.php:5-12 | with no environment variables the agent is enabled, in and out of the console |
| PackageConfig.SpanSettings | config/elastic-apm-laravel.php:52-57 | maxTraceItems defaults to 1000 and backtraceDepth to 25 |
| PackageConfig.QueryLogSettings | config/elastic-apm-laravel.php:59-65 | querylog enabled defaults to true and the threshold to 200 |
| PackageConfig.LogLevelAndSampleRate | config/elastic-apm-laravel.php:7-43 | log level defaults to "info" and the sample rate to 1 |
| PackageConfig.EnvAndTransactionSettings | config/elastic-apm-laravel.php:22-50 | the env whitelist, the environment default "development", useRouteUri default true and no ignore pattern |
| PackageConfig.SectionsAreArrays | config/elastic-apm-laravel.php:14-39 | with the package file the agent configuration can always be built |
| Stacktrace.GroupBy | src/Helpers/StacktraceExtractor.php:56-70 | a group holds no more lines than were kept |
| Stacktrace.Clamp | src/Helpers/StacktraceExtractor.php:48-55 | an index within bounds is kept; others are clamped into the file |
| Stacktrace.GroupsPartitionWindow | src/Helpers/StacktraceExtractor.php:48-70 | a line is in the ±5 window and in a group exactly when it lies in that group's range |
| Stacktrace.GroupedWindowSlice | src/Helpers/StacktraceExtractor.php:48-70 | each group is a contiguous slice of the file's lines |
| Stacktrace.NonEmpty | src/Helpers/StacktraceExtractor.php:29-31 | an empty group is absent (`optional(null)`), a non-empty one is kept |
| Stacktrace.First | src/Helpers/StacktraceExtractor.php:30 | the context line is the group's first line, if any |
| Stacktrace.GroupedLines | src/Helpers/StacktraceExtractor.php:46-70 | up to 5 lines before, the line itself and up to 5 after |
| Stacktrace.SourceCode | src/Helpers/StacktraceExtractor.php:36-71 | no source when renderSource is false or the frame has no file; otherwise the grouped lines of the file |
| Stacktrace.SourceCodeBounds | src/Helpers/StacktraceExtractor.php:36-71 | pre- and post-context hold between 1 and 5 lines when present |
| Stacktrace.StripVendor | src/Helpers/StacktraceExtractor.php:73-80 | no frame under `<base>/vendor` remains |
| Stacktrace.StripVendorMembers | src/Helpers/StacktraceExtractor.php:73-80 | exactly the non-vendor frames are kept |
| Stacktrace.StripVendorAppend | src/Helpers/StacktraceExtractor.php:73-80 | the filter works frame by frame and keeps order |
| Stacktrace.StripVendorNone | src/Helpers/StacktraceExtractor.php:73-80 | a trace without vendor frames is unchanged |
| Stacktrace.AfterLastSlash | src/Helpers/StacktraceExtractor.php:26 | the text after the last slash: a slash-free suffix |
| Stacktrace.Basename | src/Helpers/StacktraceExtractor.php:26 | `basename` has no slash |
| Stacktrace.BasenameOfJoin | src/Helpers/StacktraceExtractor.php:26 | `basename("dir/name")` is "name" |
| Stacktrace.Record | src/Helpers/StacktraceExtractor.php:20-33 | a frame record: absolute path, line (0 when missing), not a library frame, and the frame's source code |
| Stacktrace.RecordFunctionName | src/Helpers/StacktraceExtractor.php:24 | the function is class, call type and function name concatenated |
| Stacktrace.Decimal | config/elastic-apm-laravel.php:57 | the decimal string of a number, as `APM_BACKTRACEDEPTH` holds it, is a run of digits |
| Stacktrace.DecimalValue | config/elastic-apm-laravel.php:57 | reading the decimal string of n gives n back |
| Stacktrace.Depth | src/Helpers/StacktraceExtractor.php:16 | the depth as `debug_backtrace`'s int parameter gets it: an int as is, null and false 0, true 1, a digit string its number, and a TypeError for a non-numeric string or an array |
| Stacktrace.Limit | src/Helpers/StacktraceExtractor.php:16 | a depth of 0 keeps all frames, a positive depth the first depth frames, a negative one none |
| Stacktrace.Records | src/Helpers/StacktraceExtractor.php:20-33 | one record per frame, in order |
| Stacktrace.GetStacktrace | src/Helpers/StacktraceExtractor.php:12-34 | with `spans.backtraceDepth` (0 when unset) as the depth: a TypeError exactly when the depth is no int; otherwise no more records than frames nor than a positive depth, none for a negative one, and none a library frame |
| Stacktrace.StacktraceFrames | src/Helpers/StacktraceExtractor.php:12-34 | every non-vendor frame within the configured depth appears as a record |
| Stacktrace.NoSourceWithoutRendering | src/Helpers/StacktraceExtractor.php:38-40 | without renderSource no record carries source lines |
| Stacktrace.ConfiguredDepth | src/Helpers/StacktraceExtractor.php:16 | under the package configuration a trace has at most 25 records when no depth variable is set, and at most n when `APM_BACKTRACEDEPTH` is n |

## Left out

- The Laravel container, facades and event dispatcher are not modelled. Listener registration becomes direct calls of the collectors' handler methods, and container bindings become `Provider.Binding` values.
- The Nipwaayoni agent library (transactions, connector, HTTP transport, metadata events) is not part of this model. It is replaced by the `Agents.Client` value, whose `Send` outcome is a parameter.
- `microtime`, `REQUEST_TIME_FLOAT`, `LARAVEL_START`, `memory_get_peak_usage`, Carbon dates, `posix` user lookup, `gethostname`, `php_sapi_name`, `debug_backtrace`, `base_path` and `file()` are not modelled as calls. Their results are parameters.
- `preg_match` (ignore patterns) and `preg_replace` are not modelled as regex engines. Ignore matching is an abstract predicate. The app-name replacement is written out on the UTF-8 bytes of the name.
- PackageConfig.Sanitize: a name is a sequence of Unicode characters, so a name that is not valid UTF-8 cannot be stated.
- The SQL query splitter is not modelled. Its result is the `DbQueries.Split` datatype, including the case where it throws.
- Floating point is not modelled. Times are integer microseconds and milliseconds are exact reals. The one rounding step is `Time.Round3`.
- Timeline.MakeSpan: `microtime(true)` floats are not whole microseconds, and addMeasure rounds the start and the duration to 0.001 ms separately, so in PHP start + duration can miss the rounded end offset by 0.001 ms. On whole microseconds both roundings are exact, and the model's `start + duration` equality depends on that.
- Laravel's `env()` string conversions ("true", "(null)" and so on) are not modelled; environment values are already typed.
- `array_merge` renumbering of integer keys is not modelled; all merged arrays have string keys.
- `RequestStartTime::setStartTime`, which exists only for tests, is not modelled. Without it the start time is immutable, so the model reads the baseline once at construction, where `EventDataCollector` reads it on each call.
- `reset()`, named only in the collector interface, is not modelled.
- Agents.Agent.Send: a send does not reset the collectors. tests/unit/AgentTest.php:195-206 expects every collector to be empty after `send()`. But src/Agent.php does not override `send()`, and no collector class in src/Collectors implements the `reset()` that src/Contracts/DataCollector.php:24 declares. The client library's own `send()` is not part of this model. So the model keeps the collected measures, as the code does.
- EventCounter admission by the collectors is not modelled. The counter is modelled on its own, as in the source, where no collector consults it.
- Timeline.TimelineCollector: serves both `EventDataCollector` and `TimelineDataCollector`, whose code is identical except for the baseline.
- The stand-alone `isAgentDisabled` of `src/ServiceProvider.php:262-266` has no model of its own. It is the same predicate as `ConfigService.IsAgentDisabled`, which the provider model uses.
- ConfigService.ActiveHoldsDisabled: states the source as written. The agent's `active` option receives `isAgentDisabled()`, so an enabled agent gets `active => false`. The package's own test expects exactly this, so it is modelled and not listed as a finding.
- SpanEmission.Emit: `collectEvents` passes a measure's action to `LazySpan::setAction(string)`. A measure started without an action (the default) therefore makes PHP raise a type error. This is modelled as the `ACTION_NULL` error path that stops collection.
- Agents.Agent.StartTransaction: the client library's exception types are reduced to the `AgentError` variants, with the same conditions.
- Stacktrace.GetStacktrace: frames are already read by `debug_backtrace`. The `DEBUG_BACKTRACE_PROVIDE_OBJECT` objects are not modelled.
- Stacktrace.Depth: only plain digit strings convert. PHP also converts signed, space-padded, fractional and leading-numeric strings, with notices, and the model gives a TypeError for them. A float depth is not modelled.
