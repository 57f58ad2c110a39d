# A verified model of the Polaris Mesh naming plugin

This project models the parts of trpc-naming-polarismesh that decide real behaviour, and
proves properties of them for every interleaving, every option record, every sequence of
setups and every answer of the Polaris SDK. `dafny verify dfyconfig.toml` checks all of it.

## What is modelled

**Heartbeats** (`Statuses`, `HeartbeatProtocol`, `HeartbeatDelivery`, `HeartbeatRate`,
`HeartbeatIdentity`, `HeartbeatLoop`, `Registry`, `RegistryFactory`). A registry has two goroutines. The
health-check watcher pushes statuses into a channel of capacity one and, when it is full,
drains the oldest. The heartbeat loop receives statuses and ticks, sends heartbeats, and
starts or stops a ticker. `HeartbeatProtocol` is a transition system over both of them,
the ticker, the clock, registration and deregistration. Its `Next` makes one channel or
ticker operation at a time, so a failed send and the drain after it are separate steps,
and so are receiving a status, reacting to it, and creating the ticker once the immediate
heartbeat is out. Timers may be late, and a tick is lost while another is buffered. A
schedule is any sequence of enabled actions; theorems about `Exec(p, Boot(p), schedule)`
are theorems about all runs. Class `Registry.Registry` keeps the loops of the source:
`OnStatus` and `HeartBeats` run with arbitrary actions of everyone else in between, and
each is proved to be such a schedule. `HeartbeatLoop` says which one `HeartBeats` is: what
every select serves, and what the provider hears from a steady service.

**Environment routing** (`EnvLists`, `ServiceRouter`, `RoutingLaws`). The comma-separated
priority list, the rules it is printed from and parsed into, the three filters with their
router chains and metadata, and what each mode can see of the options.

**The hand-off** (`Nodes`, `Handoff`). Discovery, router, balancer and breaker pass nodes
with untyped metadata to one another; a failed type assertion is the result `Panic`. The
env key of a chosen node is the next hop's transferred list.

**Circuit breaking, selection, setup** (`CircuitBreaker`, `SelectorMetadata`,
`NamingSetup`). The stack of user judges as closures over the default policy and the two
reporters; metadata loops over maps enumerated in any order; runs of setups that may fail
part of the way, over the framework's tables and defaults.

Calls into the SDK are parameters: functions (`Sdk`, `Choose`) or replies chosen by the
caller, so the theorems hold for every SDK.

## Where the code and its words differ

- The comment at registry/registry.go:68 says the watcher should not block. It can:
  `BlockedIffRobbed` gives the exact condition (the loop receives between the watcher's
  failed send and its drain), `BlockedForever` its effect, and `OutageCanGoUnnoticed` a run
  in which a service stops serving while its heartbeats go on. Before publishing, the
  condition is that an earlier status still waits in the channel (`OneMoreCanBlock`).
- circuitbreaker/circuitbreaker.go:173 speaks of a final verdict that is still Unknown.
  There is none: the default policy always decides (`StackIsFirstMatch`).
- README.md:512-523 says that with service routing the caller's metadata and env key take
  part in routing. With a transferred environment list the code ignores both
  (`IgnoredFieldsAreIgnored`, `VisibleFieldsAreAsked`), and an env key replaces the
  environment in the metadata instead of joining it (`SourceMetadata`).
- Printing and parsing an environment list are inverse only up to empty segments, and only
  for names without commas (`NormalisedFixpoint`, `PriorityIsNonEmpty`).
- registry/README.md:14 calls the heartbeat interval the one to report at. It is rounded
  down to seconds, five seconds stand for none, and the period is positive and as
  configured exactly from -999 milliseconds up to the largest duration
  (`PeriodFollowsInterval`). Below, it is negative; above, it wraps around and may be
  negative or positive and far too short (`OverflowingInterval`). A period that is not
  positive makes the loop panic at its first ticker, just after its first heartbeat
  (`PanicsAtFirstStart`).

## Assumptions

- One watcher call at a time, and one heartbeat loop per registry: `Register` is not called
  again after it succeeded.
- A panic of the heartbeat loop ends the process; in the model the loop stops for good and
  the other actions stay possible.
- A Go ticker buffers one tick and drops further ones; a stopped ticker sends none.
- User judges are functions of the error. SDK plugins have the types they are asserted to
  have, and an SDK balancer that reports no error returns an instance.

## Model

| member | source | states |
|---|---|---|
| Statuses.DroppingAddsNoEdges | registry/registry.go:62-73 | a sequence with statuses dropped has no more rising and no more falling edges than the whole |
| HeartbeatDelivery.SafeRun | registry/registry.go:61-176 | the invariant of channel, watcher, loop and ticker holds after every schedule |
| HeartbeatDelivery.LossyAgreesWithLossless | registry/registry.go:61-73 | in every run the statuses received or in flight are a subsequence of those published with the same last one, the rest were dropped; when all has arrived the ticker is where lossless delivery would have put it |
| HeartbeatDelivery.DroppingAddsNoBursts | registry/registry.go:140-173 | newTicker is called at most once per rising edge published plus once for the default branch; tickers are stopped at most once per falling edge |
| HeartbeatDelivery.TickerSafety | registry/registry.go:137-176 | the ticker runs iff the last status received is Serving, or none was and the loop began by default; created minus stopped tickers is one or zero accordingly |
| HeartbeatDelivery.RankStep | registry/registry.go:63-72 | every channel operation of the watcher lowers its remaining work and nobody else raises it |
| HeartbeatDelivery.WatcherEffort | registry/registry.go:63-72 | under every schedule at most two sends and one drain per status, three operations in all |
| HeartbeatDelivery.BlockedIffRobbed | registry/registry.go:63-72 | the watcher is blocked iff the loop received between a failed send and its drain; never before the loop runs; otherwise one of its operations is enabled |
| HeartbeatDelivery.BlockedForever | registry/registry.go:68-70 | a blocked watcher stays blocked, its status is never received, and the ticker follows the last one received |
| HeartbeatDelivery.FullChannelCanBlock | registry/registry.go:63-72 | whenever a status waits and the loop is at its select, publishing another can block the watcher |
| HeartbeatDelivery.OutageCanGoUnnoticed | registry/registry.go:68-70 | a run that publishes Serving and then a failure, and ends with the watcher blocked and the ticker running |
| HeartbeatDelivery.OneMoreCanBlock | registry/registry.go:61-73 | with an idle watcher, some schedule that publishes once ends with the watcher blocked iff the channel is not empty |
| HeartbeatDelivery.Settle | registry/registry.go:62-176 | from any safe state with the loop begun and the watcher not blocked, a schedule of bounded length and without new statuses settles everything published |
| HeartbeatDelivery.SettlesUnlessBlocked | registry/registry.go:62-176 | once the loop has begun, a reachable state can catch up with what was published iff the watcher is not blocked |
| HeartbeatRate.HeartbeatBudget | registry/registry.go:140-173 | heartbeats are starts plus ticks taken, at most one per start and per whole period run, and exactly that many iff no timer was late and no tick lost |
| HeartbeatRate.HeartbeatLoad | registry/registry.go:140-173 | heartbeats are bounded by rising edges published and elapsed time over the period |
| HeartbeatRate.StoppedTickersStaySilent | registry/registry.go:165-170 | records of stopped tickers never change, and later heartbeats are starts and ticks of other tickers |
| HeartbeatRate.HeartbeatsOnlyWhileServing | registry/registry.go:145-174 | a step that sends a heartbeat finds Serving received last, or nothing received and a default start |
| HeartbeatRate.PanicsAtFirstStart | registry/registry.go:140-142 | with a period that is not positive no run has a ticker or more than one heartbeat, and the loop never moves on from it |
| HeartbeatIdentity.IdentityOverRun | registry/registry.go:86-215 | every endpoint is the configured namespace, service and token at the address given to the Register that began the loop; with self-registration that is the only successful registration, no heartbeat precedes it, and all later calls name the id it returned; without it all calls are heartbeats with the configured id |
| HeartbeatIdentity.RequestsOverRun | registry/registry.go:87-215 | over every run the provider gets exactly one request for each Register and each Deregister, in order, with the address given last and the id obtained last; none with registration off |
| HeartbeatLoop.LoopIsSchedule | registry/registry.go:137-176 | whatever the others do, the loop's run is a schedule, and leaves the invariant and the ticker right |
| HeartbeatLoop.FirstSelectServes | registry/registry.go:145-158 | the first select receives a waiting status and starts the ticker iff it is Serving; with none it starts by default |
| HeartbeatLoop.SelectServes | registry/registry.go:160-174 | no select idles when something is ready: a tick waiting and preferred, or alone, is taken with one heartbeat, else a waiting status is received |
| HeartbeatLoop.OneServiceASelect | registry/registry.go:160-174 | whatever the others do, ticks taken and statuses received are together as many as the selects that found one waiting |
| HeartbeatLoop.SteadyService | registry/registry.go:137-176 | with no statuses and a punctual timer the provider hears one heartbeat at once and then exactly one a period |
| Registry.Registry.constructor | registry/registry.go:51-79 | a new registry is the initial state |
| Registry.Registry.RegisterInstance | registry/registry.go:87-135 | refines the registration step; the loop starts iff registration is off or succeeded |
| Registry.Registry.DeregisterInstance | registry/registry.go:198-215 | refines the deregistration step |
| Registry.Registry.TrySending | registry/registry.go:64-67 | refines the send step and says whether it succeeded |
| Registry.Registry.DrainOldest | registry/registry.go:70-70 | refines the drain step |
| Registry.Registry.OnStatus | registry/registry.go:62-73 | the callback, under any interference, terminates and is a schedule; it ends with the new status alone in the channel, or blocked, which happens iff it was robbed |
| Registry.Registry.HeartBeat | registry/registry.go:178-195 | one heartbeat with the registry's current identity |
| Registry.Registry.React | registry/registry.go:164-174 | refines the reaction to one status |
| Registry.Registry.HeartBeats | registry/registry.go:137-176 | the loop, under any interference and any choice between tick and status, is a schedule, ends in the state the select laws speak of, and leaves the ticker following the last status |
| RegistryFactory.PeriodFollowsInterval | registry/registry_factory.go:159-159 | seconds are the interval rounded towards zero, five for none; the period is these seconds modulo 64 bits, exactly them iff they fit a duration, and also positive iff the interval is above -1000 ms and below the first that overflows |
| RegistryFactory.OverflowingInterval | registry/registry.go:142-142 | one overflowing interval gives a negative period, another a positive one of 0.29 seconds |
| RegistryFactory.ConfiguredLoad | registry/registry_factory.go:154-178 | a configured registry has the positive period configured iff its interval is in range, and then over every run heartbeats are bounded in terms of the interval; if the period is not positive there is at most one |
| RegistryFactory.ConfiguredIdentity | registry/registry_factory.go:154-178 | over every run each call carries the configured service's namespace, name and token; with registration off all are heartbeats in its id, with it on all requests are made |
| RegistryFactory.LastServiceWins | registry/registry_factory.go:154-178 | each configured name maps to its last service's registry and other names keep theirs |
| RegistryFactory.Registries.RegisterAll | registry/registry_factory.go:154-178 | the loop over services fills the table as specified |
| EnvLists.JoinSplit | servicerouter/servicerouter.go:232-235 | joining the segments of a string gives the string |
| EnvLists.ListParsesBack | servicerouter/servicerouter.go:178-235 | a joined non-empty list splits back into itself iff no member contains a comma |
| EnvLists.HasEnv | servicerouter/servicerouter.go:132-149 | true iff some source is labelled with the environment |
| EnvLists.GetDestination | servicerouter/servicerouter.go:151-166 | the non-empty environments of destinations for every service, in order |
| EnvLists.GetEnvPriority | servicerouter/servicerouter.go:169-179 | the joined environments of all routes from the given environment |
| EnvLists.PriorityAppend | servicerouter/servicerouter.go:169-179 | rules are printed route by route, in their order |
| EnvLists.PriorityWithinRoute | servicerouter/servicerouter.go:151-166 | and a route destination by destination |
| EnvLists.PriorityOfDestination | servicerouter/servicerouter.go:132-166 | one destination adds its environment iff it is named, is for every service, and some source of the route carries the environment asked for |
| EnvLists.BuildRouteRules | servicerouter/servicerouter.go:418-490 | one route from the source environment to the listed ones |
| EnvLists.EnvRouteSpellsOut | servicerouter/servicerouter.go:420-465 | that route has the caller in its environment as one source, and one destination a segment, in order, with priorities 0 to n-1 in 32 bits and weight 100 |
| EnvLists.RoundTrip | servicerouter/servicerouter.go:132-179 | printing the rules built from a list gives the list without empty segments to the same source environment, and nothing to another |
| EnvLists.NormalisedFixpoint | servicerouter/servicerouter.go:132-179 | for a non-empty string that is the string itself iff it has no empty segment, and dropping them twice is dropping them once |
| EnvLists.PriorityIsNonEmpty | servicerouter/servicerouter.go:169-179 | a printed list has no empty member and is parsed back iff no name contains a comma |
| ServiceRouter.MarkSet | servicerouter/servicerouter.go:204-223 | the two set keys are written over what the metadata held, nil included, iff a set is named |
| ServiceRouter.SetEnable | servicerouter/servicerouter.go:194-227 | set names are written into the metadata, and the set router is appended iff one is given |
| ServiceRouter.InstanceToNode | servicerouter/servicerouter.go:492-516 | nodes for all instances or one blank node, the first carrying env key, instances and cluster |
| ServiceRouter.CopyMetadata | servicerouter/servicerouter.go:297-302 | in any order of the map, exactly the entries with non-empty key and value are copied |
| ServiceRouter.FilterWithEnv | servicerouter/servicerouter.go:229-265 | refines the transferred-list mode |
| ServiceRouter.FilterByRules | servicerouter/servicerouter.go:267-342 | refines the own-rules mode, with its error cases |
| ServiceRouter.FilterWithoutServiceRouter | servicerouter/servicerouter.go:344-375 | refines the mode without service routing |
| ServiceRouter.Filter | servicerouter/servicerouter.go:378-415 | the three modes and the two errors before them |
| RoutingLaws.OneQuestion | servicerouter/servicerouter.go:378-415 | the router depends on the SDK only through its own route rules and the one query it asks |
| RoutingLaws.NotRouting | servicerouter/servicerouter.go:344-408 | with caller unknown, routing disabled or not enabled, no rules are fetched or sent, whatever the list, and the callee's environment alone decides |
| RoutingLaws.RoutingByOwnRules | servicerouter/servicerouter.go:267-412 | with routing and no list the caller's rules are fetched, failing iff that fails, and followed iff they are routing rules with outbound routes |
| RoutingLaws.RoutingByList | servicerouter/servicerouter.go:229-414 | with routing and a list no rules are fetched, and the one rule sent spells the list out |
| RoutingLaws.QueryNames | servicerouter/servicerouter.go:229-401 | every query names caller and callee, carries the canary value of the client metadata, and filters the instances handed in |
| RoutingLaws.ChainShape | servicerouter/servicerouter.go:252-359 | every chain is ordered meta or rules, sets, nearby, canary, without repetition, and which of them occur is decided one by one |
| RoutingLaws.SourceMetadata | servicerouter/servicerouter.go:194-307 | each key of the source metadata: set keys over key or env over the caller's own non-empty entries, nothing else |
| RoutingLaws.DestMetadata | servicerouter/servicerouter.go:214-353 | each key of the destination metadata |
| RoutingLaws.IgnoredFieldsAreIgnored | servicerouter/servicerouter.go:229-414 | option records that look alike to a mode get the same query and the same result |
| RoutingLaws.VisibleFieldsAreAsked | servicerouter/servicerouter.go:229-375 | without service routing and with a transferred list, queries are equal iff all visible fields are |
| RoutingLaws.RuleQueriesEqual | servicerouter/servicerouter.go:267-342 | with own rules, queries are equal iff rules can be fetched for neither, or for both and names, canary value, callee's set, whether any set is named and every source metadata entry agree |
| RoutingLaws.KeyOrEnvironment | servicerouter/servicerouter.go:297-307 | an env key beside an "env" entry and an environment beside a "key" entry give the same query |
| RoutingLaws.NoRulesNoMetadata | servicerouter/servicerouter.go:283-308 | without outbound rules, environment, key and metadata of the caller do not change the query |
| CircuitBreaker.Breakers.ShouldCircuitBreak | circuitbreaker/circuitbreaker.go:184-196 | a judge is stacked over the policy; existing breakers are untouched |
| CircuitBreaker.Breakers.Setup | circuitbreaker/circuitbreaker.go:46-64 | a breaker takes the policy as it is, under its name and timeout, and the default if asked |
| CircuitBreaker.NewestExists | circuitbreaker/circuitbreaker.go:184-196 | if any judge has an opinion, one of them is the newest to have one |
| CircuitBreaker.StackIsFirstMatch | circuitbreaker/circuitbreaker.go:184-210 | the closures return the newest judge's opinion, else the default verdict, and never Unknown |
| CircuitBreaker.FirstMatchUnique | circuitbreaker/circuitbreaker.go:184-210 | there is only one such verdict |
| CircuitBreaker.BreakerKeepsItsStack | circuitbreaker/circuitbreaker.go:55-59 | a breaker decides by the judges registered before its last set-up, whatever comes later |
| CircuitBreaker.BreakerKeepsItsTimeout | circuitbreaker/circuitbreaker.go:46-64 | a breaker set up before any judge breaks on client timeouts from its configured timeout on, one millisecond if it has none |
| CircuitBreaker.TimeoutIsTheThreshold | circuitbreaker/circuitbreaker.go:149-210 | which errors the two reporters count by default, and client timeouts exactly from the configured timeout on |
| CircuitBreaker.NewestDecidesReport | circuitbreaker/circuitbreaker.go:85-112 | the newest judge's answer decides the update: a failure with its code, a success, or none |
| CircuitBreaker.BreakerReport | circuitbreaker/circuitbreaker.go:85-112 | one update with verdict and code, or none, and which error |
| CircuitBreaker.Report | circuitbreaker/circuitbreaker.go:115-147 | the package's reporter likewise |
| CircuitBreaker.ReportersOrdered | circuitbreaker/circuitbreaker.go:149-210 | without judges the breaker ignores nothing, counts no failure the package does not, and differs exactly on errors outside the three framework codes |
| CircuitBreaker.FailuresMonotone | circuitbreaker/circuitbreaker.go:149-210 | failures are monotone in cost and antitone in the timeout |
| CircuitBreaker.ReportersOrderedOverRun | circuitbreaker/circuitbreaker.go:85-147 | over any run of calls both make one update a call for the same instance, ordered and in total |
| CircuitBreaker.Available | circuitbreaker/circuitbreaker.go:73-82 | no instance is unavailable, no breaker status is available |
| Handoff.List | discovery/discovery.go:67-102 | one node carrying all instances, none for no instances, or an error |
| Handoff.OneNodeForAll | discovery/discovery.go:88-101 | discovery keeps at most one node, which holds all instances and no address |
| Handoff.Select | loadbalance/loadbalance.go:108-154 | an error, a failed assertion, or a node with the chosen instance's address, weight, set and container, the service asked for and the first node's env key |
| Handoff.HandoffNeverBreaks | README.md:491-498 | discovery, router and balancer together never fail an assertion; a node comes out iff every stage passed something on, and it is the chosen instance's |
| Handoff.EndsInNamedError | README.md:491-498 | each error names the stage that ended the call and the SDK answer behind it; the router never finds its instances invalid |
| Handoff.NodesAreBalanceable | servicerouter/servicerouter.go:492-516 | the router's nodes are what the balancer asserts, in the number and with the addresses configured |
| Handoff.StagesFitInOrderOnly | loadbalance/loadbalance.go:118-119 | the balancer panics on discovery's output and the router rejects its own |
| Handoff.CallAndReport | circuitbreaker/circuitbreaker.go:85-112 | over a whole call the only update is for the chosen instance, and never an invalid-instance error |
| Handoff.ListSurvivesHops | loadbalance/loadbalance.go:120-147 | a non-empty list is the env key of every hop of a trip iff every hop has routing enabled |
| Handoff.OneKeyPerHop | loadbalance/loadbalance.go:120-147 | a trip that finds a node at every hop leaves one env key for each |
| Handoff.PrintedListSurvivesHops | servicerouter/servicerouter.go:310-341 | a non-empty list printed from the first caller's rules is the env key of every later hop |
| Handoff.OwnRulesPrintBack | servicerouter/servicerouter.go:310-341 | a hop whose own rules were parsed from a list leaves that list without empty segments if they are for its environment, and else nothing |
| Handoff.HopBuildsRule | servicerouter/servicerouter.go:229-264 | every routing hop turns the list into the rule that spells it out |
| SelectorMetadata.SetTransSelectorMeta | selector/selector.go:283-294 | the loop over server metadata adds the prefixed entries, prefix removed |
| SelectorMetadata.TrimmedInjective | selector/selector.go:289-291 | removing the prefix maps no two prefixed keys to one |
| SelectorMetadata.GetMetadata | selector/selector.go:134-152 | in any order, each key holds the caller's non-empty entry, else the transferred one, else the environment |
| SelectorMetadata.OrderIrrelevant | selector/selector.go:134-152 | any two orders of both maps give the same metadata |
| SelectorMetadata.ExtractSourceServiceRequestInfo | selector/selector.go:154-169 | nothing iff routing is disabled or there is nothing to say; else service, namespace and metadata |
| SelectorMetadata.GetDestMetadata | selector/selector.go:171-186 | each key holds the callee's non-empty entry, else the environment when routing is disabled |
| NamingSetup.StricterIsOlder | naming.go:255-300 | a stricter milestone was last reached no later than a weaker one, and by the same setup iff the last to reach the weaker reached both |
| NamingSetup.DefaultsInOrder | naming.go:255-322 | after any run, defaults get no newer from discovery to router, balancer, breaker; all are of one setup iff the latest default setup that installed anything completed |
| NamingSetup.NamedInOrder | naming.go:255-300 | the same under every plugin name, with selector and breaker always of one setup |
| NamingSetup.InstallsReflects | naming.go:255-322 | if tables reflect a run, installing what one more setup reached makes them reflect the longer run |
| NamingSetup.BalancersInTurn | naming.go:302-322 | a balancer type is installed iff it is asked for and it and all asked for before it are found |
| NamingSetup.InstalledUnderItsName | naming.go:255-300 | a setup changes entries under its own name only, polarismesh without one, and each iff its component was built |
| NamingSetup.Framework.SetupDiscovery | discovery/discovery.go:28-43 | registers under the name and as default if asked |
| NamingSetup.Framework.SetupRouter | servicerouter/servicerouter.go:47-117 | registers iff all six plugins are found |
| NamingSetup.Framework.SetupBalancer | loadbalance/loadbalance.go:69-86 | registers iff the plugin is found |
| NamingSetup.Framework.SetupLoadbalance | naming.go:302-322 | registers the balancers before the first missing one, the first as default, after filling in the default list |
| NamingSetup.Framework.SetupBreaker | circuitbreaker/circuitbreaker.go:46-64 | registers under the name and as default if asked |
| NamingSetup.Framework.SetupSelector | selector/selector.go:47-58 | registers under the name |
| NamingSetup.Framework.SetupComponents | naming.go:255-300 | installs exactly what the setup reached before it failed, as defaults too unless the configuration says false |
| NamingSetup.Framework.SetupWithConfig | naming.go:240-253 | succeeds iff everything is found; each default becomes its number iff its component was built and the configuration does not say false; and every entry and default is the work of the last setup that got far enough |

## Left out

- Registry.Registry.HeartBeats: follows the loop through any finite number of selects, since the loop itself never ends, and for positive periods, since otherwise it panics; what holds forever, and of the panic, is proved of schedules.
- Registry.Registry.RegisterInstance: does not model a further call after a successful one, which the source answers with a second heartbeat loop on the same channel.
- RoutingLaws.VisibleFieldsAreAsked: does not cover the own-rules mode, where it is false (`KeyOrEnvironment`) and `RuleQueriesEqual` says what holds instead.
- Concurrent watcher calls, and a second heartbeat loop on one registry.
- Weight, TTL, metadata and location in the registration request: copied fields with no effect on later behaviour.
- Splitting addresses into host and port, and expanding environment variables in them: library code, so host and port are given.
- The Polaris SDK: rule matching, nearby routing, balancing algorithms and breaker windows are arbitrary functions.
- The SDK configuration setters of naming.go and the selector's own configuration: straight-line copies.
- selector.Select and selector.New: one SDK request and one SDK configuration copied from options.
- loadbalance.AsPluginCfgs, logging, metrics and YAML decoding.
- Type assertions on plugins during setup, and nil results of an SDK call that reports no error.
