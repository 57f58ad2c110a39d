/** The service router: which plugin chain and route information each option record gives. */
module ServiceRouter {
  import opened Wrappers
  import opened Nodes
  import opened EnvLists

  datatype Router = DstMeta | RuleBased | SetDivision | NearbyBased | Canary

  datatype Config = Config(enable: bool, enableCanary: bool, needReturnAllNodes: bool)

  datatype Options = Options(
    namespace: string,
    sourceNamespace: string,
    sourceServiceName: string,
    sourceEnvName: string,
    destinationEnvName: string,
    sourceSetName: string,
    destinationSetName: string,
    sourceMetadata: map<string, string>,
    envKey: string,
    envTransfer: string,
    disableServiceRouter: bool,
    // The client metadata of the call's context, when it has a context and metadata.
    clientMetadata: Option<map<string, string>>
  )

  const CANARY_KEY := "trpc-canary"

  // A service as the SDK sees it. The filters write its metadata in place.
  class ServiceInfo {
    const service: string
    const namespace: string
    var metadata: Metadata

    constructor (service: string, namespace: string)
      ensures this.service == service && this.namespace == namespace && metadata == None
    {
      this.service, this.namespace, this.metadata := service, namespace, None;
    }

    function Snapshot(): Info
      reads this
    {
      Info(service, namespace, metadata)
    }
  }

  datatype Info = Info(service: string, namespace: string, metadata: Metadata)

  // The SDK's rule response: nil, or of some type, with or without a routing value.
  datatype RuleResponse = NilResponse | Response(isRouting: bool, routing: Option<seq<Route>>)

  datatype SourceRule = NoRule | LocalRule(outbounds: seq<Route>) | FetchedRule(response: RuleResponse)

  datatype RouteInfo = RouteInfo(source: Info, rule: SourceRule, dest: Info, canary: string)

  // One call of GetFilterInstances, and its answer.
  datatype Query = Query(chain: seq<Router>, info: RouteInfo, instances: ServiceInstances)

  datatype Filtered = Filtered(instances: seq<Instance>, cluster: Cluster)

  datatype Sdk = Sdk(filter: Query -> Reply<Filtered>, rule: (string, string) -> Reply<RuleResponse>)

  function GetOutboundsRoute(response: RuleResponse): seq<Route> {
    if response.Response? && response.isRouting && response.routing.Some? then response.routing.value else []
  }

  function GetCanaryValue(opts: Options): string {
    if opts.clientMetadata.None? || CANARY_KEY !in opts.clientMetadata.value then ""
    else opts.clientMetadata.value[CANARY_KEY]
  }

  // ----- what each filter asks of the SDK --------------------------------------

  function Marked(metadata: Metadata, setName: string): Metadata {
    if setName == "" then metadata
    else
      var known := if metadata.Some? then metadata.value else map[];
      Some(known[SET_ENABLE_KEY := SET_ENABLE_VALUE][SET_NAME_KEY := setName])
  }

  function Chain(config: Config, opts: Options, first: seq<Router>): seq<Router> {
    first
    + (if opts.sourceSetName != "" || opts.destinationSetName != "" then [SetDivision] else [])
    + [NearbyBased]
    + if config.enableCanary then [Canary] else []
  }

  function QueryWith(config: Config, service: string, opts: Options, resp: ServiceInstances,
                     first: seq<Router>, source: Metadata, rule: SourceRule, dest: Metadata): Query {
    Query(Chain(config, opts, first),
          RouteInfo(Info(opts.sourceServiceName, opts.sourceNamespace, Marked(source, opts.sourceSetName)),
                    rule,
                    Info(service, opts.namespace, Marked(dest, opts.destinationSetName)),
                    GetCanaryValue(opts)),
          resp)
  }

  function EnvMetadata(env: string): Metadata {
    Some(map["env" := env])
  }

  // The entries of the caller's metadata that are passed on.
  function Proper(metadata: map<string, string>): map<string, string> {
    map k | k in metadata && k != "" && metadata[k] != "" :: metadata[k]
  }

  function RuleMetadata(opts: Options): Metadata {
    var base := Proper(opts.sourceMetadata);
    Some(if opts.envKey != "" then base["key" := opts.envKey] else base["env" := opts.sourceEnvName])
  }

  function TransferQuery(config: Config, service: string, opts: Options, resp: ServiceInstances): Query {
    QueryWith(config, service, opts, resp, [RuleBased], EnvMetadata(opts.sourceEnvName),
              LocalRule([EnvRoute(opts.sourceNamespace, opts.sourceServiceName, opts.sourceEnvName, opts.namespace,
                                  if opts.envTransfer == "" then [] else Split(opts.envTransfer))]),
              None)
  }

  function RuleQuery(config: Config, service: string, opts: Options, resp: ServiceInstances,
                     response: RuleResponse): Query {
    if GetOutboundsRoute(response) == []
    then QueryWith(config, service, opts, resp, [], None, FetchedRule(response), None)
    else QueryWith(config, service, opts, resp, [RuleBased], RuleMetadata(opts), FetchedRule(response), None)
  }

  function DirectQuery(config: Config, service: string, opts: Options, resp: ServiceInstances): Query {
    if opts.destinationEnvName == ""
    then QueryWith(config, service, opts, resp, [], None, NoRule, None)
    else QueryWith(config, service, opts, resp, [DstMeta], None, NoRule, EnvMetadata(opts.destinationEnvName))
  }

  // ----- what each filter answers ----------------------------------------------

  function NodeOf(instance: Instance): Node {
    BLANK_NODE.(serviceName := instance.service, address := HostPort(instance.host, instance.port),
                protocol := instance.protocol, weight := instance.weight)
  }

  // One node per instance, or a single blank one; the first carries everything else.
  function NodesOf(config: Config, env: string, filtered: Filtered, resp: ServiceInstances): seq<Node> {
    if filtered.instances == [] then []
    else
      var list := if config.needReturnAllNodes
                  then seq(|filtered.instances|,
                           i requires 0 <= i < |filtered.instances| => NodeOf(filtered.instances[i]))
                  else [BLANK_NODE];
      list[0 := list[0].(envKey := env,
                         metadata := map["serviceInstances" := TheInstances(resp),
                                         "cluster" := TheCluster(filtered.cluster)])]
  }

  function TransferResult(config: Config, sdk: Sdk, service: string, opts: Options, resp: ServiceInstances):
    Result<seq<Node>> {
    match sdk.filter(TransferQuery(config, service, opts, resp))
    case Failed(cause) => Err(FilterWithEnvFailed(cause))
    case Done(filtered) => Ok(NodesOf(config, opts.envTransfer, filtered, resp))
  }

  function RuleResult(config: Config, sdk: Sdk, service: string, opts: Options, resp: ServiceInstances):
    Result<seq<Node>> {
    match sdk.rule(opts.sourceNamespace, opts.sourceServiceName)
    case Failed(cause) => Err(RouteRuleFailed(opts.sourceNamespace, opts.sourceServiceName, cause))
    case Done(response) =>
      match sdk.filter(RuleQuery(config, service, opts, resp, response))
      case Failed(cause) => Err(FilterByRulesFailed(cause))
      case Done(filtered) =>
        if filtered.instances == [] then Err(EnvHasNoInstances(opts.sourceEnvName, opts.envKey))
        else
          Ok(NodesOf(config, Join(EnvPriority(GetOutboundsRoute(response), opts.sourceEnvName)), filtered, resp))
  }

  function DirectResult(config: Config, sdk: Sdk, service: string, opts: Options, resp: ServiceInstances):
    Result<seq<Node>> {
    match sdk.filter(DirectQuery(config, service, opts, resp))
    case Failed(cause) => Err(FilterFailed(cause))
    case Done(filtered) =>
      if filtered.instances == [] then Err(NoInstancesAvailable) else Ok(NodesOf(config, "", filtered, resp))
  }

  datatype Mode = Direct | ByTransfer | ByRules

  function ModeOf(config: Config, opts: Options): Mode {
    if opts.sourceServiceName == "" || opts.sourceNamespace == "" || opts.disableServiceRouter || !config.enable
    then Direct
    else if opts.envTransfer == "" then ByRules else ByTransfer
  }

  function Routed(config: Config, sdk: Sdk, service: string, opts: Options, resp: ServiceInstances):
    Result<seq<Node>> {
    match ModeOf(config, opts)
    case Direct => DirectResult(config, sdk, service, opts, resp)
    case ByTransfer => TransferResult(config, sdk, service, opts, resp)
    case ByRules => RuleResult(config, sdk, service, opts, resp)
  }

  // Service routing takes a caller that is known and both switches.
  predicate RoutingEnabled(config: Config, opts: Options) {
    opts.sourceServiceName != "" && opts.sourceNamespace != "" && !opts.disableServiceRouter && config.enable
  }

  predicate CarriesInstances(nodes: seq<Node>) {
    && nodes != []
    && "service_instances" in nodes[0].metadata
    && nodes[0].metadata["service_instances"].TheInstances?
  }

  function Filtering(config: Config, sdk: Sdk, service: string, nodes: seq<Node>, opts: Options):
    Result<seq<Node>> {
    if nodes == [] then Err(NoNodeAvailable)
    else if !CarriesInstances(nodes) then Err(ServiceInstancesInvalid)
    else Routed(config, sdk, service, opts, nodes[0].metadata["service_instances"].all)
  }

  // ----- the filters -------------------------------------------------------------

  // One half of setEnable: nothing, if no set is named.
  method MarkSet(info: ServiceInfo, setName: string)
    modifies info
    ensures info.metadata == Marked(old(info.metadata), setName)
  {
    if setName != "" {
      if info.metadata.None? {
        info.metadata := Some(map[SET_ENABLE_KEY := SET_ENABLE_VALUE, SET_NAME_KEY := setName]);
      }
      info.metadata := Some(info.metadata.value[SET_ENABLE_KEY := SET_ENABLE_VALUE]);
      info.metadata := Some(info.metadata.value[SET_NAME_KEY := setName]);
      assert info.metadata.value == Marked(old(info.metadata), setName).value;
    }
  }

  method SetEnable(source: ServiceInfo, dest: ServiceInfo, opts: Options, chain: seq<Router>)
    returns (longer: seq<Router>)
    requires source != dest
    modifies source, dest
    ensures source.metadata == Marked(old(source.metadata), opts.sourceSetName)
    ensures dest.metadata == Marked(old(dest.metadata), opts.destinationSetName)
    ensures longer == if opts.sourceSetName != "" || opts.destinationSetName != "" then chain + [SetDivision] else chain
  {
    longer := chain;
    if opts.sourceSetName != "" || opts.destinationSetName != "" {
      MarkSet(source, opts.sourceSetName);
      MarkSet(dest, opts.destinationSetName);
      longer := longer + [SetDivision];
    }
  }

  method InstanceToNode(config: Config, filtered: Filtered, env: string, resp: ServiceInstances)
    returns (list: seq<Node>)
    ensures list == NodesOf(config, env, filtered, resp)
  {
    if |filtered.instances| == 0 {
      return [];
    }
    list := [];
    if config.needReturnAllNodes {
      for i := 0 to |filtered.instances|
        invariant |list| == i
        invariant forall k :: 0 <= k < i ==> list[k] == NodeOf(filtered.instances[k])
      {
        var ins := filtered.instances[i];
        list := list + [Node(ins.service, HostPort(ins.host, ins.port), ins.protocol, ins.weight, "", "", "", map[])];
      }
    } else {
      list := list + [BLANK_NODE];
    }
    list := list[0 := list[0].(envKey := env)];
    list := list[0 := list[0].(metadata := map["serviceInstances" := TheInstances(resp),
                                                "cluster" := TheCluster(filtered.cluster)])];
  }

  method FilterWithEnv(config: Config, sdk: Sdk, resp: ServiceInstances,
                       source: ServiceInfo, dest: ServiceInfo, opts: Options) returns (r: Result<seq<Node>>)
    requires source != dest
    requires source.Snapshot() == Info(opts.sourceServiceName, opts.sourceNamespace, None)
    requires dest.namespace == opts.namespace && dest.metadata == None
    modifies source, dest
    ensures r == TransferResult(config, sdk, dest.service, opts, resp)
  {
    var envList: seq<string> := [];
    if |opts.envTransfer| > 0 {
      envList := Split(opts.envTransfer);
    }
    source.metadata := Some(map["env" := opts.sourceEnvName]);
    var rules := BuildRouteRules(opts.sourceNamespace, opts.sourceServiceName, opts.sourceEnvName,
                                 opts.namespace, envList);
    var chain := [RuleBased];
    chain := SetEnable(source, dest, opts, chain);
    chain := chain + [NearbyBased];
    if config.enableCanary {
      chain := chain + [Canary];
    }
    var info := RouteInfo(source.Snapshot(), LocalRule(rules), dest.Snapshot(), GetCanaryValue(opts));
    var query := Query(chain, info, resp);
    assert query == TransferQuery(config, dest.service, opts, resp);
    match sdk.filter(query)
    case Failed(cause) => return Err(FilterWithEnvFailed(cause));
    case Done(filtered) =>
      var list := InstanceToNode(config, filtered, opts.envTransfer, resp);
      return Ok(list);
  }

  // The loop over the caller's metadata, in whatever order the map yields its keys.
  method CopyMetadata(from: map<string, string>) returns (metadata: map<string, string>)
    ensures metadata == Proper(from)
  {
    metadata := map[];
    var left := from.Keys;
    while left != {}
      invariant left <= from.Keys
      invariant metadata == map k | k in from && k !in left && k != "" && from[k] != "" :: from[k]
      decreases |left|
    {
      var key :| key in left;
      if |key| > 0 && |from[key]| > 0 {
        metadata := metadata[key := from[key]];
      }
      left := left - {key};
    }
  }

  method FilterByRules(config: Config, sdk: Sdk, resp: ServiceInstances,
                       source: ServiceInfo, dest: ServiceInfo, opts: Options) returns (r: Result<seq<Node>>)
    requires source != dest
    requires source.Snapshot() == Info(opts.sourceServiceName, opts.sourceNamespace, None)
    requires dest.namespace == opts.namespace && dest.metadata == None
    modifies source, dest
    ensures r == RuleResult(config, sdk, dest.service, opts, resp)
  {
    var fetched := sdk.rule(source.namespace, source.service);
    if fetched.Failed? {
      return Err(RouteRuleFailed(source.namespace, source.service, fetched.cause));
    }
    var response := fetched.value;
    var chain: seq<Router> := [];
    var newEnvStr := "";
    var outbounds := GetOutboundsRoute(response);
    if |outbounds| == 0 {
      chain := SetEnable(source, dest, opts, chain);
      chain := chain + [NearbyBased];
      if config.enableCanary {
        chain := chain + [Canary];
      }
    } else {
      var copied := CopyMetadata(opts.sourceMetadata);
      source.metadata := Some(copied);
      if |opts.envKey| > 0 {
        source.metadata := Some(source.metadata.value["key" := opts.envKey]);
      } else {
        source.metadata := Some(source.metadata.value["env" := opts.sourceEnvName]);
      }
      newEnvStr := GetEnvPriority(outbounds, opts.sourceEnvName);
      chain := chain + [RuleBased];
      chain := SetEnable(source, dest, opts, chain);
      chain := chain + [NearbyBased];
      if config.enableCanary {
        chain := chain + [Canary];
      }
    }
    var info := RouteInfo(source.Snapshot(), FetchedRule(response), dest.Snapshot(), GetCanaryValue(opts));
    var query := Query(chain, info, resp);
    assert query == RuleQuery(config, dest.service, opts, resp, response);
    match sdk.filter(query)
    case Failed(cause) => return Err(FilterByRulesFailed(cause));
    case Done(filtered) =>
      if |filtered.instances| == 0 {
        return Err(EnvHasNoInstances(opts.sourceEnvName, opts.envKey));
      }
      var list := InstanceToNode(config, filtered, newEnvStr, resp);
      return Ok(list);
  }

  method FilterWithoutServiceRouter(config: Config, sdk: Sdk, resp: ServiceInstances,
                                    source: ServiceInfo, dest: ServiceInfo, opts: Options)
    returns (r: Result<seq<Node>>)
    requires source != dest
    requires source.Snapshot() == Info(opts.sourceServiceName, opts.sourceNamespace, None)
    requires dest.namespace == opts.namespace && dest.metadata == None
    modifies source, dest
    ensures r == DirectResult(config, sdk, dest.service, opts, resp)
  {
    var chain: seq<Router> := [];
    if |opts.destinationEnvName| > 0 {
      chain := chain + [DstMeta];
      dest.metadata := Some(map["env" := opts.destinationEnvName]);
    }
    chain := SetEnable(source, dest, opts, chain);
    chain := chain + [NearbyBased];
    if config.enableCanary {
      chain := chain + [Canary];
    }
    var info := RouteInfo(source.Snapshot(), NoRule, dest.Snapshot(), GetCanaryValue(opts));
    var query := Query(chain, info, resp);
    assert query == DirectQuery(config, dest.service, opts, resp);
    match sdk.filter(query)
    case Failed(cause) => return Err(FilterFailed(cause));
    case Done(filtered) =>
      if |filtered.instances| == 0 {
        return Err(NoInstancesAvailable);
      }
      var list := InstanceToNode(config, filtered, "", resp);
      return Ok(list);
  }

  method Filter(config: Config, sdk: Sdk, serviceName: string, nodes: seq<Node>, opts: Options)
    returns (r: Result<seq<Node>>)
    ensures r == Filtering(config, sdk, serviceName, nodes, opts)
    ensures CarriesInstances(nodes) ==>
              var resp := nodes[0].metadata["service_instances"].all;
              r == if !RoutingEnabled(config, opts) then DirectResult(config, sdk, serviceName, opts, resp)
                   else if opts.envTransfer == "" then RuleResult(config, sdk, serviceName, opts, resp)
                   else TransferResult(config, sdk, serviceName, opts, resp)
  {
    if |nodes| == 0 {
      return Err(NoNodeAvailable);
    }
    if "service_instances" !in nodes[0].metadata || !nodes[0].metadata["service_instances"].TheInstances? {
      return Err(ServiceInstancesInvalid);
    }
    var resp := nodes[0].metadata["service_instances"].all;
    var source := new ServiceInfo(opts.sourceServiceName, opts.sourceNamespace);
    var dest := new ServiceInfo(serviceName, opts.namespace);
    if |source.service| == 0 || |source.namespace| == 0 || opts.disableServiceRouter || !config.enable {
      r := FilterWithoutServiceRouter(config, sdk, resp, source, dest, opts);
    } else if |opts.envTransfer| == 0 {
      r := FilterByRules(config, sdk, resp, source, dest, opts);
    } else {
      r := FilterWithEnv(config, sdk, resp, source, dest, opts);
    }
  }
}
