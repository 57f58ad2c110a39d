/** Properties of the service router, for every option record and every SDK. */
module RoutingLaws {
  import opened Wrappers
  import opened Nodes
  import opened EnvLists
  import opened ServiceRouter

  // The query the router puts to the SDK's filter, unless it cannot even fetch its rules.
  function Asked(config: Config, sdk: Sdk, service: string, opts: Options, resp: ServiceInstances): Option<Query> {
    match ModeOf(config, opts)
    case Direct => Some(DirectQuery(config, service, opts, resp))
    case ByTransfer => Some(TransferQuery(config, service, opts, resp))
    case ByRules =>
      match sdk.rule(opts.sourceNamespace, opts.sourceServiceName)
      case Failed(_) => None
      case Done(response) => Some(RuleQuery(config, service, opts, resp, response))
  }

  // The router depends on the SDK through its own route rules and that one query alone.
  lemma OneQuestion(config: Config, sdk: Sdk, other: Sdk, service: string, opts: Options, resp: ServiceInstances)
    requires other.rule(opts.sourceNamespace, opts.sourceServiceName)
             == sdk.rule(opts.sourceNamespace, opts.sourceServiceName)
    requires var q := Asked(config, sdk, service, opts, resp);
             q.Some? ==> other.filter(q.value) == sdk.filter(q.value)
    ensures Routed(config, other, service, opts, resp) == Routed(config, sdk, service, opts, resp)
  {
  }

  // ----- which mode ---------------------------------------------------------------

  // Without service routing no list, however it came, brings in the caller's rules: they are not even
  // fetched, and the callee's environment alone decides.
  lemma NotRouting(config: Config, sdk: Sdk, rule: (string, string) -> Reply<RuleResponse>,
                   service: string, nodes: seq<Node>, opts: Options, resp: ServiceInstances)
    requires !RoutingEnabled(config, opts)
    ensures Filtering(config, sdk.(rule := rule), service, nodes, opts) == Filtering(config, sdk, service, nodes, opts)
    ensures var q := Asked(config, sdk, service, opts, resp);
            && q.Some? && q.value.info.rule.NoRule? && RuleBased !in q.value.chain
            && (DstMeta in q.value.chain <==> opts.destinationEnvName != "")
            && At(q.value.info.dest.metadata, "env")
               == if opts.destinationEnvName != "" then Some(opts.destinationEnvName) else None
  {
    ChainShape(config, sdk, service, opts, resp);
    DestMetadata(config, sdk, service, opts, resp, "env");
    KeysDiffer();
  }

  // With it and no list, the caller's own rules are fetched, and a failure to do so is the
  // only way to that error; they are followed exactly when they are routing rules with
  // outbound routes.
  lemma RoutingByOwnRules(config: Config, sdk: Sdk, service: string, nodes: seq<Node>, opts: Options,
                          resp: ServiceInstances)
    requires RoutingEnabled(config, opts) && opts.envTransfer == ""
    ensures var fetched := sdk.rule(opts.sourceNamespace, opts.sourceServiceName);
            && (nodes != [] && CarriesInstances(nodes) && fetched.Failed? <==>
                  Filtering(config, sdk, service, nodes, opts).Err?
                  && Filtering(config, sdk, service, nodes, opts).error.RouteRuleFailed?)
            && var q := Asked(config, sdk, service, opts, resp);
               && (q.Some? <==> fetched.Done?)
               && (q.Some? ==>
                     && q.value.info.rule == FetchedRule(fetched.value)
                     && DstMeta !in q.value.chain
                     && (RuleBased in q.value.chain <==>
                           exists r :: fetched.value == Response(true, Some(r)) && r != []))
  {
    if sdk.rule(opts.sourceNamespace, opts.sourceServiceName).Done? {
      ChainShape(config, sdk, service, opts, resp);
    }
  }

  // With a list the caller's own rules are not fetched: the one rule is the list's.
  lemma RoutingByList(config: Config, sdk: Sdk, rule: (string, string) -> Reply<RuleResponse>,
                      service: string, nodes: seq<Node>, opts: Options, resp: ServiceInstances)
    requires RoutingEnabled(config, opts) && opts.envTransfer != ""
    ensures Filtering(config, sdk.(rule := rule), service, nodes, opts) == Filtering(config, sdk, service, nodes, opts)
    ensures var q := Asked(config, sdk, service, opts, resp);
            && q.Some? && RuleBased in q.value.chain && DstMeta !in q.value.chain
            && q.value.info.rule.LocalRule? && |q.value.info.rule.outbounds| == 1
            && SpellsOut(q.value.info.rule.outbounds[0], opts.sourceNamespace, opts.sourceServiceName,
                         opts.sourceEnvName, opts.namespace, Split(opts.envTransfer))
  {
    ChainShape(config, sdk, service, opts, resp);
    EnvRouteSpellsOut(opts.sourceNamespace, opts.sourceServiceName, opts.sourceEnvName, opts.namespace,
                      Split(opts.envTransfer));
  }

  // In every mode the query names caller and callee, carries the canary value of the call's
  // client metadata, and filters the instances handed in.
  lemma QueryNames(config: Config, sdk: Sdk, service: string, opts: Options, resp: ServiceInstances)
    requires Asked(config, sdk, service, opts, resp).Some?
    ensures var q := Asked(config, sdk, service, opts, resp).value;
            && q.info.source.service == opts.sourceServiceName && q.info.source.namespace == opts.sourceNamespace
            && q.info.dest.service == service && q.info.dest.namespace == opts.namespace
            && q.info.canary == (match opts.clientMetadata
                                 case Some(m) => if "trpc-canary" in m then m["trpc-canary"] else ""
                                 case None => "")
            && q.instances == resp
  {
  }

  // ----- the chain ----------------------------------------------------------------

  function Place(r: Router): nat {
    match r
    case DstMeta => 0
    case RuleBased => 0
    case SetDivision => 1
    case NearbyBased => 2
    case Canary => 3
  }

  // Does the caller's own rule apply: one transferred to it, or one it fetched?
  predicate UsesRules(config: Config, sdk: Sdk, opts: Options) {
    match ModeOf(config, opts)
    case Direct => false
    case ByTransfer => true
    case ByRules =>
      var fetched := sdk.rule(opts.sourceNamespace, opts.sourceServiceName);
      fetched.Done? && GetOutboundsRoute(fetched.value) != []
  }

  predicate InOrder(chain: seq<Router>) {
    forall i, j :: 0 <= i < j < |chain| ==> Place(chain[i]) < Place(chain[j])
  }

  predicate NamesSet(opts: Options) {
    opts.sourceSetName != "" || opts.destinationSetName != ""
  }

  function Sets(opts: Options): seq<Router> {
    if NamesSet(opts) then [SetDivision] else []
  }

  function Canaries(config: Config): seq<Router> {
    if config.enableCanary then [Canary] else []
  }

  lemma JoinInOrder(a: seq<Router>, b: seq<Router>)
    requires InOrder(a) && InOrder(b)
    requires forall i, j :: 0 <= i < |a| && 0 <= j < |b| ==> Place(a[i]) < Place(b[j])
    ensures InOrder(a + b)
  {
    var chain := a + b;
    forall i, j | 0 <= i < j < |chain|
      ensures Place(chain[i]) < Place(chain[j])
    {
      assert chain[i] == if i < |a| then a[i] else b[i - |a|];
      assert chain[j] == if j < |a| then a[j] else b[j - |a|];
    }
  }

  lemma ChainOrdered(first: seq<Router>, sets: seq<Router>, canary: seq<Router>)
    requires first == [] || first == [DstMeta] || first == [RuleBased]
    requires (sets == [] || sets == [SetDivision]) && (canary == [] || canary == [Canary])
    ensures InOrder(first + (sets + ([NearbyBased] + canary)))
  {
    JoinInOrder([NearbyBased], canary);
    JoinInOrder(sets, [NearbyBased] + canary);
    JoinInOrder(first, sets + ([NearbyBased] + canary));
  }

  lemma ChainMember(config: Config, opts: Options, first: seq<Router>, r: Router)
    ensures r in Chain(config, opts, first) <==>
            r in first || r in Sets(opts) || r == NearbyBased || r in Canaries(config)
  {
  }

  lemma ChainInOrder(config: Config, opts: Options, first: seq<Router>)
    requires first == [] || first == [DstMeta] || first == [RuleBased]
    ensures InOrder(Chain(config, opts, first))
  {
    var sets, canary := Sets(opts), Canaries(config);
    ChainOrdered(first, sets, canary);
    assert first + sets + [NearbyBased] + canary == first + (sets + ([NearbyBased] + canary));
  }

  lemma ChainMembers(config: Config, opts: Options, first: seq<Router>)
    requires first == [] || first == [DstMeta] || first == [RuleBased]
    ensures var chain := Chain(config, opts, first);
            && NearbyBased in chain
            && (RuleBased in chain <==> first == [RuleBased])
            && (DstMeta in chain <==> first == [DstMeta])
            && (SetDivision in chain <==> NamesSet(opts))
            && (Canary in chain <==> config.enableCanary)
  {
    ChainMember(config, opts, first, NearbyBased);
    ChainMember(config, opts, first, RuleBased);
    ChainMember(config, opts, first, DstMeta);
    ChainMember(config, opts, first, SetDivision);
    ChainMember(config, opts, first, Canary);
  }

  // Every chain is in the order meta or rules, sets, nearby, canary, without repetition;
  // which of them it has is decided one by one. Together this determines the chain.
  lemma ChainShape(config: Config, sdk: Sdk, service: string, opts: Options, resp: ServiceInstances)
    requires Asked(config, sdk, service, opts, resp).Some?
    ensures var chain := Asked(config, sdk, service, opts, resp).value.chain;
            && InOrder(chain)
            && NearbyBased in chain
            && (RuleBased in chain <==> UsesRules(config, sdk, opts))
            && (DstMeta in chain <==> ModeOf(config, opts).Direct? && opts.destinationEnvName != "")
            && (SetDivision in chain <==> NamesSet(opts))
            && (Canary in chain <==> config.enableCanary)
  {
    var first := if UsesRules(config, sdk, opts) then [RuleBased]
                 else if ModeOf(config, opts).Direct? && opts.destinationEnvName != "" then [DstMeta] else [];
    ChainInOrder(config, opts, first);
    ChainMembers(config, opts, first);
    assert Asked(config, sdk, service, opts, resp).value.chain == Chain(config, opts, first);
  }

  // ----- the metadata ---------------------------------------------------------------

  function At(metadata: Metadata, key: string): Option<string> {
    if metadata.Some? && key in metadata.value then Some(metadata.value[key]) else None
  }

  lemma KeysDiffer()
    ensures "env" != SET_ENABLE_KEY && "env" != SET_NAME_KEY && SET_ENABLE_KEY != SET_NAME_KEY
    ensures "key" != SET_ENABLE_KEY && "key" != SET_NAME_KEY && "env" != "key"
  {
    assert |SET_ENABLE_KEY| == 19 && |SET_NAME_KEY| == 17;
    assert "env"[0] != "key"[0];
  }

  // What each key of the source's metadata is: the set keys win, then the environment or
  // key that selects the rule, then the caller's own entries; nothing else appears.
  function SourceEntry(config: Config, sdk: Sdk, opts: Options, k: string): Option<string> {
    if k == SET_NAME_KEY && opts.sourceSetName != "" then Some(opts.sourceSetName)
    else if k == SET_ENABLE_KEY && opts.sourceSetName != "" then Some(SET_ENABLE_VALUE)
    else if !UsesRules(config, sdk, opts) then None
    else if ModeOf(config, opts).ByTransfer? then
      if k == "env" then Some(opts.sourceEnvName) else None
    else if k == "key" && opts.envKey != "" then Some(opts.envKey)
    else if k == "env" && opts.envKey == "" then Some(opts.sourceEnvName)
    else if k != "" && k in opts.sourceMetadata && opts.sourceMetadata[k] != ""
    then Some(opts.sourceMetadata[k])
    else None
  }

  lemma SourceMetadata(config: Config, sdk: Sdk, service: string, opts: Options, resp: ServiceInstances, k: string)
    requires Asked(config, sdk, service, opts, resp).Some?
    ensures At(Asked(config, sdk, service, opts, resp).value.info.source.metadata, k)
            == SourceEntry(config, sdk, opts, k)
  {
    KeysDiffer();
  }

  // Likewise for the callee: its environment counts only without service routing.
  lemma DestMetadata(config: Config, sdk: Sdk, service: string, opts: Options, resp: ServiceInstances, k: string)
    requires Asked(config, sdk, service, opts, resp).Some?
    ensures At(Asked(config, sdk, service, opts, resp).value.info.dest.metadata, k) ==
            if k == SET_NAME_KEY && opts.destinationSetName != "" then Some(opts.destinationSetName)
            else if k == SET_ENABLE_KEY && opts.destinationSetName != "" then Some(SET_ENABLE_VALUE)
            else if k == "env" && ModeOf(config, opts).Direct? && opts.destinationEnvName != ""
            then Some(opts.destinationEnvName)
            else None
  {
    KeysDiffer();
  }

  // ----- non-interference --------------------------------------------------------------

  // What a mode can see of the options: fields it must ignore are blanked, and of the
  // client metadata only the canary entry shows.
  function Visible(mode: Mode, opts: Options): Options {
    var opts := opts.(disableServiceRouter := false, clientMetadata := Some(map[CANARY_KEY := GetCanaryValue(opts)]));
    match mode
    case Direct => opts.(sourceEnvName := "", sourceMetadata := map[], envKey := "", envTransfer := "")
    case ByTransfer => opts.(sourceMetadata := map[], envKey := "", destinationEnvName := "")
    case ByRules => opts.(destinationEnvName := "")
  }

  // Two option records that route in the same mode and look alike to it are routed alike.
  lemma IgnoredFieldsAreIgnored(config: Config, sdk: Sdk, service: string, a: Options, b: Options,
                                resp: ServiceInstances)
    requires ModeOf(config, a) == ModeOf(config, b)
    requires Visible(ModeOf(config, a), a) == Visible(ModeOf(config, b), b)
    ensures Asked(config, sdk, service, a, resp) == Asked(config, sdk, service, b, resp)
    ensures Routed(config, sdk, service, a, resp) == Routed(config, sdk, service, b, resp)
  {
    var mode := ModeOf(config, a);
    assert GetCanaryValue(a) == Visible(mode, a).clientMetadata.value[CANARY_KEY];
    assert GetCanaryValue(b) == Visible(mode, b).clientMetadata.value[CANARY_KEY];
    assert a.namespace == Visible(mode, a).namespace && a.sourceNamespace == Visible(mode, a).sourceNamespace;
  }

  lemma MarkedSet(metadata: Metadata, set1: string, other: Metadata, set2: string)
    requires Marked(metadata, set1) == Marked(other, set2)
    requires At(metadata, SET_NAME_KEY) == None == At(other, SET_NAME_KEY)
    ensures set1 == set2
    ensures At(metadata, "env") == At(other, "env")
  {
    KeysDiffer();
    assert At(Marked(metadata, set1), SET_NAME_KEY) == if set1 == "" then None else Some(set1);
    assert At(Marked(other, set2), SET_NAME_KEY) == if set2 == "" then None else Some(set2);
    assert At(Marked(metadata, set1), "env") == At(metadata, "env");
    assert At(Marked(other, set2), "env") == At(other, "env");
  }

  // And nothing else is: outside the rule mode, the query shows every visible field.
  lemma VisibleFieldsAreAsked(config: Config, sdk: Sdk, service: string, a: Options, b: Options,
                              resp: ServiceInstances)
    requires ModeOf(config, a) == ModeOf(config, b) && !ModeOf(config, a).ByRules?
    ensures Asked(config, sdk, service, a, resp) == Asked(config, sdk, service, b, resp) <==>
            Visible(ModeOf(config, a), a) == Visible(ModeOf(config, b), b)
  {
    KeysDiffer();
    var mode := ModeOf(config, a);
    if Visible(mode, a) == Visible(mode, b) {
      IgnoredFieldsAreIgnored(config, sdk, service, a, b, resp);
    } else if Asked(config, sdk, service, a, resp) == Asked(config, sdk, service, b, resp) {
      if mode.Direct? {
        MarkedSet(None, a.sourceSetName, None, b.sourceSetName);
        MarkedSet(if a.destinationEnvName == "" then None else EnvMetadata(a.destinationEnvName), a.destinationSetName,
                  if b.destinationEnvName == "" then None else EnvMetadata(b.destinationEnvName), b.destinationSetName);
      } else {
        MarkedSet(EnvMetadata(a.sourceEnvName), a.sourceSetName, EnvMetadata(b.sourceEnvName), b.sourceSetName);
        MarkedSet(None, a.destinationSetName, None, b.destinationSetName);
        SameRouteSameList(a, b);
      }
      assert false;
    }
  }

  // A transferred list can be read back from the rule it becomes.
  lemma SameRouteSameList(a: Options, b: Options)
    requires EnvRoute(a.sourceNamespace, a.sourceServiceName, a.sourceEnvName, a.namespace, Split(a.envTransfer))
             == EnvRoute(b.sourceNamespace, b.sourceServiceName, b.sourceEnvName, b.namespace, Split(b.envTransfer))
    ensures a.envTransfer == b.envTransfer
  {
    var x := EnvRoute(a.sourceNamespace, a.sourceServiceName, a.sourceEnvName, a.namespace,
                      Split(a.envTransfer)).destinations;
    var y := EnvRoute(b.sourceNamespace, b.sourceServiceName, b.sourceEnvName, b.namespace,
                      Split(b.envTransfer)).destinations;
    forall i | 0 <= i < |Split(a.envTransfer)|
      ensures i < |Split(b.envTransfer)| && Split(a.envTransfer)[i] == Split(b.envTransfer)[i]
    {
      assert x[i] == y[i];
      assert x[i].metadata.value["env"] == y[i].metadata.value["env"];
    }
    assert |x| == |y|;
    assert Split(a.envTransfer) == Split(b.envTransfer);
    JoinSplit(a.envTransfer);
    JoinSplit(b.envTransfer);
  }

  // ----- what the rule mode asks ---------------------------------------------------------

  predicate Fetches(sdk: Sdk, opts: Options) {
    sdk.rule(opts.sourceNamespace, opts.sourceServiceName).Done?
  }

  // The same callee, caller, canary value and callee's set; whether any set is named; and
  // for the rest only what becomes of the source's metadata.
  ghost predicate RuledAlike(config: Config, sdk: Sdk, a: Options, b: Options) {
    && a.namespace == b.namespace
    && a.sourceNamespace == b.sourceNamespace && a.sourceServiceName == b.sourceServiceName
    && GetCanaryValue(a) == GetCanaryValue(b)
    && a.destinationSetName == b.destinationSetName
    && NamesSet(a) == NamesSet(b)
    && forall k :: SourceEntry(config, sdk, a, k) == SourceEntry(config, sdk, b, k)
  }

  lemma SameEntries(m: Metadata, n: Metadata)
    requires m.Some? == n.Some? && forall k :: At(m, k) == At(n, k)
    ensures m == n
  {
    if m.Some? {
      forall k
        ensures k in m.value <==> k in n.value
        ensures k in m.value ==> m.value[k] == n.value[k]
      {
        assert At(m, k) == At(n, k);
      }
      assert m.value == n.value;
    }
  }

  lemma SourcePresent(config: Config, sdk: Sdk, service: string, opts: Options, resp: ServiceInstances)
    requires ModeOf(config, opts).ByRules? && Fetches(sdk, opts)
    ensures Asked(config, sdk, service, opts, resp).value.info.source.metadata.Some?
            <==> UsesRules(config, sdk, opts) || SourceEntry(config, sdk, opts, SET_NAME_KEY).Some?
  {
  }

  lemma AlikeAsksAlike(config: Config, sdk: Sdk, service: string, a: Options, b: Options, resp: ServiceInstances)
    requires ModeOf(config, a).ByRules? && ModeOf(config, b).ByRules? && Fetches(sdk, a)
    requires RuledAlike(config, sdk, a, b)
    ensures Asked(config, sdk, service, a, resp) == Asked(config, sdk, service, b, resp)
  {
    var p := Asked(config, sdk, service, a, resp).value;
    var q := Asked(config, sdk, service, b, resp).value;
    forall k
      ensures At(p.info.source.metadata, k) == At(q.info.source.metadata, k)
    {
      SourceMetadata(config, sdk, service, a, resp, k);
      SourceMetadata(config, sdk, service, b, resp, k);
    }
    SourcePresent(config, sdk, service, a, resp);
    SourcePresent(config, sdk, service, b, resp);
    SameEntries(p.info.source.metadata, q.info.source.metadata);
    assert p.chain == q.chain;
  }

  lemma AskedAlikeIsAlike(config: Config, sdk: Sdk, service: string, a: Options, b: Options, resp: ServiceInstances)
    requires ModeOf(config, a).ByRules? && ModeOf(config, b).ByRules? && Fetches(sdk, a)
    requires Asked(config, sdk, service, a, resp) == Asked(config, sdk, service, b, resp)
    ensures RuledAlike(config, sdk, a, b)
  {
    MarkedSet(None, a.destinationSetName, None, b.destinationSetName);
    ChainShape(config, sdk, service, a, resp);
    ChainShape(config, sdk, service, b, resp);
    forall k
      ensures SourceEntry(config, sdk, a, k) == SourceEntry(config, sdk, b, k)
    {
      SourceMetadata(config, sdk, service, a, resp, k);
      SourceMetadata(config, sdk, service, b, resp, k);
    }
  }

  // In the rule mode two option records get the same query exactly when their rules can be
  // fetched for neither, or for both and they are ruled alike.
  lemma RuleQueriesEqual(config: Config, sdk: Sdk, service: string, a: Options, b: Options, resp: ServiceInstances)
    requires ModeOf(config, a).ByRules? && ModeOf(config, b).ByRules?
    ensures Asked(config, sdk, service, a, resp) == Asked(config, sdk, service, b, resp) <==>
            if Fetches(sdk, a) then Fetches(sdk, b) && RuledAlike(config, sdk, a, b) else !Fetches(sdk, b)
  {
    if Fetches(sdk, a) && Fetches(sdk, b) {
      if RuledAlike(config, sdk, a, b) {
        AlikeAsksAlike(config, sdk, service, a, b, resp);
      } else if Asked(config, sdk, service, a, resp) == Asked(config, sdk, service, b, resp) {
        AskedAlikeIsAlike(config, sdk, service, a, b, resp);
      }
    }
  }

  // So the options cannot be read back from it: an env key beside an "env" entry asks what
  // an environment beside a "key" entry does, whatever environment the former names.
  lemma KeyOrEnvironment(config: Config, sdk: Sdk, service: string, opts: Options, resp: ServiceInstances,
                         env: string, key: string)
    requires ModeOf(config, opts).ByRules? && env != "" && key != ""
    ensures var a := opts.(envKey := key, sourceMetadata := map["env" := env]);
            var b := opts.(envKey := "", sourceEnvName := env, sourceMetadata := map["key" := key]);
            a != b && Asked(config, sdk, service, a, resp) == Asked(config, sdk, service, b, resp)
  {
    KeysDiffer();
    var a := opts.(envKey := key, sourceMetadata := map["env" := env]);
    var b := opts.(envKey := "", sourceEnvName := env, sourceMetadata := map["key" := key]);
    forall k
      ensures SourceEntry(config, sdk, a, k) == SourceEntry(config, sdk, b, k)
    {
    }
    RuleQueriesEqual(config, sdk, service, a, b, resp);
  }

  // And without outbound rules the caller's environment, key and metadata are not asked about.
  lemma NoRulesNoMetadata(config: Config, sdk: Sdk, service: string, opts: Options, resp: ServiceInstances,
                          env: string, key: string, metadata: map<string, string>)
    requires ModeOf(config, opts).ByRules? && !UsesRules(config, sdk, opts)
    ensures Asked(config, sdk, service, opts.(sourceEnvName := env, envKey := key, sourceMetadata := metadata), resp)
            == Asked(config, sdk, service, opts, resp)
  {
    RuleQueriesEqual(config, sdk, service, opts.(sourceEnvName := env, envKey := key, sourceMetadata := metadata), opts,
                     resp);
  }
}
