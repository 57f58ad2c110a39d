/** Discovery, router, balancer and breaker hand untyped node metadata to one another.
    Whatever the SDK answers, no stage trips over what the previous one left. */
module Handoff {
  import opened Wrappers
  import opened Nodes
  import opened EnvLists
  import opened ServiceRouter
  import opened RoutingLaws
  import opened CircuitBreaker

  // ----- discovery --------------------------------------------------------------

  function Listed(serviceName: string, namespace: string, reply: Reply<ServiceInstances>): Result<seq<Node>> {
    if serviceName == "" || namespace == "" then Err(ServiceOrNamespaceEmpty)
    else
      match reply
      case Failed(cause) => Err(GetInstancesFailed(cause))
      case Done(resp) =>
        Ok(if resp.instances == [] then []
           else [BLANK_NODE.(metadata := map["service_instances" := TheInstances(resp)])])
  }

  method List(serviceName: string, namespace: string, reply: Reply<ServiceInstances>)
    returns (r: Result<seq<Node>>)
    ensures r == Listed(serviceName, namespace, reply)
  {
    if |serviceName| == 0 || |namespace| == 0 {
      return Err(ServiceOrNamespaceEmpty);
    }
    if reply.Failed? {
      return Err(GetInstancesFailed(reply.cause));
    }
    var resp := reply.value;
    var list: seq<Node> := [];
    for i := 0 to |resp.instances|
      invariant i == 0 && list == []
    {
      list := list + [BLANK_NODE.(metadata := map["service_instances" := TheInstances(resp)])];
      break;
    }
    assert list == Listed(serviceName, namespace, reply).value;
    return Ok(list);
  }

  // Discovery keeps one node however many instances there are, and it holds them all.
  lemma OneNodeForAll(serviceName: string, namespace: string, resp: ServiceInstances)
    requires serviceName != "" && namespace != ""
    ensures var r := Listed(serviceName, namespace, Done(resp));
            && r.Ok? && (r.value == [] <==> resp.instances == []) && |r.value| <= 1
            && forall node <- r.value ::
                 node.metadata.Keys == {"service_instances"}
                 && node.metadata["service_instances"] == TheInstances(resp) && node.address == NoAddress
  {
  }

  // ----- the balancer -------------------------------------------------------------

  // The SDK's choice of one instance, given the cluster, the hash key and all instances.
  type Choose = (Cluster, string, ServiceInstances) -> Reply<Instance>

  predicate Balanceable(list: seq<Node>) {
    && list != []
    && "cluster" in list[0].metadata && list[0].metadata["cluster"].TheCluster?
    && "serviceInstances" in list[0].metadata && list[0].metadata["serviceInstances"].TheInstances?
  }

  function Entry(metadata: Metadata, key: string): string {
    if metadata.Some? && key in metadata.value then metadata.value[key] else ""
  }

  function NodeFor(serviceName: string, instance: Instance, envKey: string): Node {
    Node(serviceName, HostPort(instance.host, instance.port), "", instance.weight, envKey,
         if Entry(instance.metadata, SET_ENABLE_KEY) == SET_ENABLE_VALUE
         then Entry(instance.metadata, SET_NAME_KEY) else "",
         Entry(instance.metadata, CONTAINER_KEY),
         map["instance" := TheInstance(instance)])
  }

  function Selected(serviceName: string, list: seq<Node>, key: string, choose: Choose): Result<Node> {
    if list == [] then Err(NoServerAvailable)
    else if !Balanceable(list) then Panic
    else
      match choose(list[0].metadata["cluster"].cluster, key, list[0].metadata["serviceInstances"].all)
      case Failed(cause) => Err(ChooseFailed(cause))
      case Done(instance) => Ok(NodeFor(serviceName, instance, list[0].envKey))
  }

  // The entry of an instance's metadata, if it has one.
  predicate Tagged(instance: Instance, key: string, value: string) {
    instance.metadata.Some? && key in instance.metadata.value && instance.metadata.value[key] == value
  }

  // What every field of the selected node is: where the chosen instance lives, its weight,
  // its container and, if it is in an enabled set, its set; the service asked for; and the
  // first node's env key.
  ghost predicate StandsFor(node: Node, serviceName: string, chosen: Instance, envKey: string) {
    && node.address == HostPort(chosen.host, chosen.port) && node.weight == chosen.weight
    && node.serviceName == serviceName && node.envKey == envKey && node.protocol == ""
    && (forall name | name != "" :: node.setName == name <==>
                                      && Tagged(chosen, "internal-enable-set", "Y")
                                      && Tagged(chosen, "internal-set-name", name))
    && (forall name | name != "" :: node.containerName == name <==> Tagged(chosen, "container_name", name))
    && node.metadata == map["instance" := TheInstance(chosen)]
  }

  lemma NodeForStandsFor(serviceName: string, chosen: Instance, envKey: string)
    ensures StandsFor(NodeFor(serviceName, chosen, envKey), serviceName, chosen, envKey)
  {
    assert SET_ENABLE_KEY == "internal-enable-set" && SET_ENABLE_VALUE == "Y";
    assert SET_NAME_KEY == "internal-set-name" && CONTAINER_KEY == "container_name";
    var node := NodeFor(serviceName, chosen, envKey);
    forall name | name != ""
      ensures node.containerName == name <==> Tagged(chosen, "container_name", name)
    {
      assert Entry(chosen.metadata, CONTAINER_KEY) == name <==> Tagged(chosen, CONTAINER_KEY, name);
    }
    forall name | name != ""
      ensures node.setName == name <==> Tagged(chosen, "internal-enable-set", "Y")
                                        && Tagged(chosen, "internal-set-name", name)
    {
      assert Entry(chosen.metadata, SET_NAME_KEY) == name <==> Tagged(chosen, SET_NAME_KEY, name);
      assert Entry(chosen.metadata, SET_ENABLE_KEY) == SET_ENABLE_VALUE <==>
             Tagged(chosen, SET_ENABLE_KEY, SET_ENABLE_VALUE);
    }
  }

  lemma SelectedStandsFor(serviceName: string, list: seq<Node>, key: string, choose: Choose)
    requires Selected(serviceName, list, key, choose).Ok?
    ensures var all, cluster := list[0].metadata["serviceInstances"].all, list[0].metadata["cluster"].cluster;
            && choose(cluster, key, all).Done?
            && StandsFor(Selected(serviceName, list, key, choose).value, serviceName, choose(cluster, key, all).value,
                         list[0].envKey)
  {
    var first := list[0].metadata;
    var chosen := choose(first["cluster"].cluster, key, first["serviceInstances"].all).value;
    NodeForStandsFor(serviceName, chosen, list[0].envKey);
  }

  method Select(serviceName: string, list: seq<Node>, key: string, choose: Choose) returns (r: Result<Node>)
    ensures r == Selected(serviceName, list, key, choose)
    ensures r.Ok? ==>
              var all, cluster := list[0].metadata["serviceInstances"].all, list[0].metadata["cluster"].cluster;
              && choose(cluster, key, all).Done?
              && StandsFor(r.value, serviceName, choose(cluster, key, all).value, list[0].envKey)
  {
    if |list| == 0 {
      return Err(NoServerAvailable);
    }
    if "cluster" !in list[0].metadata || !list[0].metadata["cluster"].TheCluster? {
      return Panic;
    }
    var cluster := list[0].metadata["cluster"].cluster;
    if "serviceInstances" !in list[0].metadata || !list[0].metadata["serviceInstances"].TheInstances? {
      return Panic;
    }
    var serviceInstances := list[0].metadata["serviceInstances"].all;
    var envKey := list[0].envKey;
    var chosen := choose(cluster, key, serviceInstances);
    if chosen.Failed? {
      return Err(ChooseFailed(chosen.cause));
    }
    var inst := chosen.value;
    var setName, containerName := "", "";
    if inst.metadata.Some? {
      containerName := Entry(inst.metadata, CONTAINER_KEY);
      if Entry(inst.metadata, SET_ENABLE_KEY) == SET_ENABLE_VALUE {
        setName := Entry(inst.metadata, SET_NAME_KEY);
      }
    }
    SelectedStandsFor(serviceName, list, key, choose);
    return Ok(Node(serviceName, HostPort(inst.host, inst.port), "", inst.weight, envKey, setName, containerName,
                   map["instance" := TheInstance(inst)]));
  }

  // ----- one call --------------------------------------------------------------------

  // The components a caller has installed, and how the SDK answers each of them.
  datatype Client = Client(config: Config, discover: Reply<ServiceInstances>, sdk: Sdk, choose: Choose)

  function Resolved(client: Client, service: string, opts: Options, key: string): Result<Node> {
    match Listed(service, opts.namespace, client.discover)
    case Err(e) => Err(e)
    case Panic => Panic
    case Ok(nodes) =>
      match Filtering(client.config, client.sdk, service, nodes, opts)
      case Err(e) => Err(e)
      case Panic => Panic
      case Ok(list) => Selected(service, list, key, client.choose)
  }

  lemma KeysDistinct()
    ensures "service_instances" != "serviceInstances"
    ensures "cluster" != "serviceInstances" && "cluster" != "service_instances"
  {
    assert |"service_instances"| == 17 && |"serviceInstances"| == 16 && |"cluster"| == 7;
  }

  // Nodes the router returns are what the balancer needs.
  lemma NodesAreBalanceable(config: Config, env: string, filtered: Filtered, resp: ServiceInstances)
    requires filtered.instances != []
    ensures var list := NodesOf(config, env, filtered, resp);
            && Balanceable(list) && list[0].envKey == env
            && list[0].metadata["cluster"].cluster == filtered.cluster
            && list[0].metadata["serviceInstances"].all == resp
            && !CarriesInstances(list)
            && list[0].metadata.Keys == {"cluster", "serviceInstances"}
            && |list| == (if config.needReturnAllNodes then |filtered.instances| else 1)
            && (!config.needReturnAllNodes ==> list[0].address == NoAddress && list[0].weight == 0
                                               && list[0].serviceName == list[0].protocol == "")
            && (config.needReturnAllNodes ==> forall i :: 0 <= i < |list| ==>
                  var instance := filtered.instances[i];
                  && list[i].address == HostPort(instance.host, instance.port)
                  && list[i].serviceName == instance.service
                  && list[i].protocol == instance.protocol && list[i].weight == instance.weight
                  && list[i].setName == list[i].containerName == ""
                  && (i > 0 ==> list[i].envKey == "" && list[i].metadata == map[]))
  {
    KeysDistinct();
  }

  // What the SDK's filter let through, if the run got that far.
  function Passed(client: Client, service: string, opts: Options): Option<Filtered> {
    if client.discover.Failed? then None
    else
      var q := Asked(client.config, client.sdk, service, opts, client.discover.value);
      if q.None? then None
      else
        match client.sdk.filter(q.value)
        case Failed(_) => None
        case Done(filtered) => if filtered.instances == [] then None else Some(filtered)
  }

  // The env key the router leaves for the balancer.
  function EnvKeyOf(client: Client, opts: Options): string {
    match ModeOf(client.config, opts)
    case Direct => ""
    case ByTransfer => opts.envTransfer
    case ByRules =>
      match client.sdk.rule(opts.sourceNamespace, opts.sourceServiceName)
      case Failed(_) => ""
      case Done(response) => Join(EnvPriority(GetOutboundsRoute(response), opts.sourceEnvName))
  }

  lemma RoutedWhenPassed(config: Config, sdk: Sdk, service: string, opts: Options, resp: ServiceInstances)
    ensures var client := Client(config, Done(resp), sdk, (_, _, _) => Failed(""));
            var passed := Passed(client, service, opts);
            match Routed(config, sdk, service, opts, resp)
            case Panic => false
            case Err(_) => passed.None?
            case Ok(list) =>
              if passed.None? then list == []
              else list == NodesOf(config, EnvKeyOf(client, opts), passed.value, resp)
  {
  }

  // For every SDK and every option record no type assertion fails. A node comes out exactly
  // when every stage had something to pass on, and then it stands for the very instance the
  // balancer chose from the instances discovered and the cluster the router found.
  lemma HandoffNeverBreaks(client: Client, service: string, opts: Options, key: string)
    ensures var r := Resolved(client, service, opts, key);
            var passed := Passed(client, service, opts);
            && !r.Panic?
            && (r.Ok? <==>
                  && service != "" && opts.namespace != ""
                  && client.discover.Done? && client.discover.value.instances != []
                  && passed.Some?
                  && client.choose(passed.value.cluster, key, client.discover.value).Done?)
            && (r.Ok? ==>
                  var chosen := client.choose(passed.value.cluster, key, client.discover.value).value;
                  && StandsFor(r.value, service, chosen, EnvKeyOf(client, opts))
                  && HasInstance(r.value) && r.value.metadata["instance"].instance == chosen)
  {
    if service != "" && opts.namespace != "" && client.discover.Done? && client.discover.value.instances != [] {
      var resp := client.discover.value;
      RoutedWhenPassed(client.config, client.sdk, service, opts, resp);
      var passed := Passed(client, service, opts);
      if passed.Some? {
        NodesAreBalanceable(client.config, EnvKeyOf(client, opts), passed.value, resp);
        if Resolved(client, service, opts, key).Ok? {
          SelectedStandsFor(service, NodesOf(client.config, EnvKeyOf(client, opts), passed.value, resp), key,
                            client.choose);
        }
      }
    }
  }

  // What the SDK's filter answered, if it was asked.
  function Answered(client: Client, service: string, opts: Options): Option<Reply<Filtered>> {
    if client.discover.Failed? then None
    else
      var q := Asked(client.config, client.sdk, service, opts, client.discover.value);
      if q.None? then None else Some(client.sdk.filter(q.value))
  }

  // Which stage each error comes from, and what the SDK had answered it. No call ends in
  // the router's complaint about invalid service instances.
  lemma EndsInNamedError(client: Client, service: string, opts: Options, key: string)
    requires Resolved(client, service, opts, key).Err?
    ensures var answered := Answered(client, service, opts);
            var mode := ModeOf(client.config, opts);
            var empty := answered.Some? && answered.value.Done? && answered.value.value.instances == [];
            match Resolved(client, service, opts, key).error
            case ServiceOrNamespaceEmpty => service == "" || opts.namespace == ""
            case GetInstancesFailed(cause) => client.discover == Failed(cause)
            case NoNodeAvailable => client.discover == Done(ServiceInstances([]))
            case ServiceInstancesInvalid => false
            case RouteRuleFailed(namespace, source, cause) =>
              mode.ByRules? && namespace == opts.sourceNamespace && source == opts.sourceServiceName
              && client.sdk.rule(namespace, source) == Failed(cause)
            case FilterWithEnvFailed(cause) => mode.ByTransfer? && answered == Some(Failed(cause))
            case FilterByRulesFailed(cause) => mode.ByRules? && answered == Some(Failed(cause))
            case FilterFailed(cause) => mode.Direct? && answered == Some(Failed(cause))
            case EnvHasNoInstances(env, envKey) =>
              mode.ByRules? && empty && env == opts.sourceEnvName && envKey == opts.envKey
            case NoInstancesAvailable => mode.Direct? && empty
            case NoServerAvailable => mode.ByTransfer? && empty
            case ChooseFailed(cause) =>
              var passed := Passed(client, service, opts);
              passed.Some? && client.choose(passed.value.cluster, key, client.discover.value) == Failed(cause)
  {
    if service != "" && opts.namespace != "" && client.discover.Done? && client.discover.value.instances != [] {
      var resp := client.discover.value;
      RoutedWhenPassed(client.config, client.sdk, service, opts, resp);
      if Passed(client, service, opts).Some? {
        NodesAreBalanceable(client.config, EnvKeyOf(client, opts), Passed(client, service, opts).value, resp);
      }
    }
  }

  // The stages fit together in this order only: the balancer panics on what discovery
  // returns, and the router rejects its own output.
  lemma StagesFitInOrderOnly(client: Client, service: string, opts: Options, key: string)
    requires service != "" && opts.namespace != "" && client.discover.Done?
    requires client.discover.value.instances != [] && Passed(client, service, opts).Some?
    ensures Selected(service, Listed(service, opts.namespace, client.discover).value, key, client.choose) == Panic
    ensures var nodes := Listed(service, opts.namespace, client.discover).value;
            var routed := Filtering(client.config, client.sdk, service, nodes, opts);
            && routed.Ok?
            && Filtering(client.config, client.sdk, service, routed.value, opts) == Err(ServiceInstancesInvalid)
  {
    KeysDistinct();
    var resp := client.discover.value;
    RoutedWhenPassed(client.config, client.sdk, service, opts, resp);
    NodesAreBalanceable(client.config, EnvKeyOf(client, opts), Passed(client, service, opts).value, resp);
  }

  // A whole call: resolve, then report how it went. A result reaches the breaker's consumer
  // only for a node that came out, and then names exactly the chosen instance.
  method CallAndReport(client: Client, service: string, opts: Options, key: string,
                       should: Verdict, consumer: Consumer, cost: int, err: Option<Failure>, reply: Reply<()>)
    returns (r: Result<Node>, e: Option<ReportError>)
    modifies consumer
    ensures r == Resolved(client, service, opts, key) && !r.Panic?
    ensures r.Err? ==> consumer.updates == old(consumer.updates) && e == None
    ensures r.Ok? ==>
              var cluster := Passed(client, service, opts).value.cluster;
              var chosen := client.choose(cluster, key, client.discover.value).value;
              consumer.updates == old(consumer.updates)
              + if Skipped(should, err, cost) then []
                else [Update(chosen, Counted(should, err, cost), cost,
                             if Counted(should, err, cost) then ERR_RET_CODE else 0)]
    ensures e != Some(InvalidInstance)
  {
    HandoffNeverBreaks(client, service, opts, key);
    e := None;
    var nodes := List(service, opts.namespace, client.discover);
    if nodes.Err? {
      return Err(nodes.error), None;
    }
    var list := Filter(client.config, client.sdk, service, nodes.value, opts);
    if list.Err? {
      return Err(list.error), None;
    }
    r := Select(service, list.value, key, client.choose);
    if r.Ok? {
      e := BreakerReport(should, consumer, r.value, cost, err, reply);
    }
  }

  // ----- many hops ---------------------------------------------------------------------

  // A caller on the way; its transferred list is the env key of the hop before.
  datatype Hop = Hop(client: Client, service: string, opts: Options, key: string)

  function OptionsAt(hop: Hop, transfer: string): Options {
    hop.opts.(envTransfer := transfer)
  }

  predicate Routing(hop: Hop) {
    RoutingEnabled(hop.client.config, hop.opts)
  }

  // The env key of the node the hop finds, if it finds one.
  function HopKey(hop: Hop, transfer: string): Option<string> {
    var r := Resolved(hop.client, hop.service, OptionsAt(hop, transfer), hop.key);
    if r.Ok? then Some(r.value.envKey) else None
  }

  // The env keys along the way, as long as every hop finds a node.
  function EnvKeys(hops: seq<Hop>, transfer: string): Option<seq<string>> {
    if hops == [] then Some([])
    else
      var key := HopKey(hops[0], transfer);
      if key.None? then None
      else
        var rest := EnvKeys(hops[1..], key.value);
        if rest.None? then None else Some([key.value] + rest.value)
  }

  predicate AllRouting(hops: seq<Hop>) {
    forall i :: 0 <= i < |hops| ==> Routing(hops[i])
  }

  predicate AllEqual(keys: seq<string>, key: string) {
    forall i :: 0 <= i < |keys| ==> keys[i] == key
  }

  lemma HopKeeps(hop: Hop, transfer: string)
    requires HopKey(hop, transfer).Some?
    ensures HopKey(hop, transfer).value == EnvKeyOf(hop.client, OptionsAt(hop, transfer))
    ensures transfer != "" ==> (HopKey(hop, transfer).value == transfer <==> Routing(hop))
  {
    HandoffNeverBreaks(hop.client, hop.service, OptionsAt(hop, transfer), hop.key);
  }

  lemma FirstAndRest(hops: seq<Hop>, keys: seq<string>, key: string)
    requires hops != [] && keys != []
    ensures AllRouting(hops) <==> Routing(hops[0]) && AllRouting(hops[1..])
    ensures AllEqual(keys, key) <==> keys[0] == key && AllEqual(keys[1..], key)
  {
    assert forall i :: 0 < i < |hops| ==> hops[i] == hops[1..][i - 1];
    assert forall i :: 0 < i < |keys| ==> keys[i] == keys[1..][i - 1];
  }

  // A non-empty list survives a trip unchanged exactly when every hop has routing enabled.
  lemma {:induction false} ListSurvivesHops(hops: seq<Hop>, transfer: string)
    requires transfer != "" && EnvKeys(hops, transfer).Some?
    ensures AllEqual(EnvKeys(hops, transfer).value, transfer) <==> AllRouting(hops)
    decreases |hops|
  {
    if hops != [] {
      HopKeeps(hops[0], transfer);
      FirstAndRest(hops, EnvKeys(hops, transfer).value, transfer);
      if Routing(hops[0]) {
        ListSurvivesHops(hops[1..], transfer);
      }
    }
  }

  lemma {:induction false} OneKeyPerHop(hops: seq<Hop>, transfer: string)
    requires EnvKeys(hops, transfer).Some?
    ensures |EnvKeys(hops, transfer).value| == |hops|
    decreases |hops|
  {
    if hops != [] {
      OneKeyPerHop(hops[1..], HopKey(hops[0], transfer).value);
    }
  }

  // The list printed from the first caller's own rules is what every later hop carries.
  lemma PrintedListSurvivesHops(hops: seq<Hop>)
    requires hops != [] && AllRouting(hops) && EnvKeys(hops, "").Some?
    ensures var printed := EnvKeyOf(hops[0].client, OptionsAt(hops[0], ""));
            printed != "" ==> AllEqual(EnvKeys(hops, "").value, printed)
  {
    var printed := EnvKeyOf(hops[0].client, OptionsAt(hops[0], ""));
    HopKeeps(hops[0], "");
    FirstAndRest(hops, EnvKeys(hops, "").value, printed);
    if printed != "" {
      ListSurvivesHops(hops[1..], printed);
    }
  }

  // A caller whose own rules are those a list was parsed into prints that list again,
  // without its empty segments, if the rules are for its environment, and else nothing.
  lemma OwnRulesPrintBack(hop: Hop, s: string, sourceEnv: string, namespace: string)
    requires Routing(hop) && HopKey(hop, "").Some?
    requires var opts := hop.opts;
             hop.client.sdk.rule(opts.sourceNamespace, opts.sourceServiceName)
             == Done(Response(true, Some([EnvRoute(opts.sourceNamespace, opts.sourceServiceName, sourceEnv, namespace,
                                                   Split(s))])))
    ensures HopKey(hop, "") == Some(if hop.opts.sourceEnvName == sourceEnv then Normalised(s) else "")
  {
    HopKeeps(hop, "");
    RoundTrip(hop.opts.sourceNamespace, hop.opts.sourceServiceName, sourceEnv, namespace, s, hop.opts.sourceEnvName);
  }

  // And every hop with routing asks the SDK by the rule that spells the list out.
  lemma HopBuildsRule(hop: Hop, transfer: string, resp: ServiceInstances)
    requires transfer != "" && Routing(hop)
    ensures var q := Asked(hop.client.config, hop.client.sdk, hop.service, OptionsAt(hop, transfer), resp);
            && q.Some? && q.value.info.rule.LocalRule? && |q.value.info.rule.outbounds| == 1
            && SpellsOut(q.value.info.rule.outbounds[0], hop.opts.sourceNamespace, hop.opts.sourceServiceName,
                         hop.opts.sourceEnvName, hop.opts.namespace, Split(transfer))
  {
    EnvRouteSpellsOut(hop.opts.sourceNamespace, hop.opts.sourceServiceName, hop.opts.sourceEnvName,
                      hop.opts.namespace, Split(transfer));
  }
}
