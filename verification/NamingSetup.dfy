/** Runs of the naming plugin's setup, each of which may fail part of the way. */
module NamingSetup {
  import opened Plugins
  import opened Wrappers

  datatype RouterPlugin = RuleBased | NearbyBased | SetDivision | FilterOnly | DstMeta | Canary

  // In the order the router looks for them.
  const ROUTER_PLUGINS := [RuleBased, NearbyBased, SetDivision, FilterOnly, DstMeta, Canary]

  function Position(p: RouterPlugin): (i: nat)
    ensures i < |ROUTER_PLUGINS| && ROUTER_PLUGINS[i] == p
  {
    match p
    case RuleBased => 0
    case NearbyBased => 1
    case SetDivision => 2
    case FilterOnly => 3
    case DstMeta => 4
    case Canary => 5
  }

  // How the SDK behaves during one setup: whether a context can be made, and which
  // router and balancer plugins can be found.
  datatype Sdk = Sdk(context: bool, router: RouterPlugin -> bool, balancer: string -> bool)

  // One call of setupWithConfig: the plugin's name, whether to set defaults, the load
  // balancers asked for, and the SDK it met.
  datatype Step = Step(name: string, default: Option<bool>, balancers: seq<string>, sdk: Sdk)

  function SetDefault(default: Option<bool>): bool {
    default.Some? ==> default.value
  }

  const DEFAULT_BALANCERS := ["polaris_wr", "polaris_hash", "polaris_ring_hash", "polaris_l5cst", "polaris_maglev"]

  function InEffect(balancers: seq<string>): seq<string> {
    if balancers == [] then DEFAULT_BALANCERS else balancers
  }

  // ----- how far a setup gets -------------------------------------------------------

  predicate DiscoveryBuilt(s: Step) {
    s.sdk.context
  }

  predicate RouterBuilt(s: Step) {
    DiscoveryBuilt(s) && forall p: RouterPlugin :: s.sdk.router(p)
  }

  // The first n balancers of the list in effect are found.
  predicate BalancersBuilt(s: Step, n: nat) {
    var names := InEffect(s.balancers);
    RouterBuilt(s) && n <= |names| && forall j :: 0 <= j < n ==> s.sdk.balancer(names[j])
  }

  predicate Completed(s: Step) {
    BalancersBuilt(s, |InEffect(s.balancers)|)
  }

  // ----- the framework's registries ----------------------------------------------------

  // Each component carries the number of the setup that built it.
  datatype Tables = Tables(
    discovery: map<string, nat>,
    router: map<string, nat>,
    balancer: map<string, nat>,
    breaker: map<string, nat>,
    selector: map<string, nat>,
    defaultDiscovery: Option<nat>,
    defaultRouter: Option<nat>,
    defaultBalancer: Option<nat>,
    defaultBalancerType: Option<string>,
    defaultBreaker: Option<nat>
  )

  const EMPTY := Tables(map[], map[], map[], map[], map[], None, None, None, None, None)

  // What a call may achieve: one of its milestones under a plugin name, or with the
  // defaults set; or a balancer type.
  datatype Milestone = DiscoveryDone | RouterDone | FirstBalancerDone | AllDone

  datatype Goal = Named(name: string, m: Milestone) | Default(m: Milestone) | Balancer(balanceType: string)

  predicate Reaches(s: Step, m: Milestone) {
    match m
    case DiscoveryDone => DiscoveryBuilt(s)
    case RouterDone => RouterBuilt(s)
    case FirstBalancerDone => BalancersBuilt(s, 1)
    case AllDone => Completed(s)
  }

  // The balancer type is among the first n of the list, and it and all before it are found.
  predicate Balances(s: Step, balanceType: string, n: nat) {
    exists j :: 0 <= j < n && j < |InEffect(s.balancers)|
                && InEffect(s.balancers)[j] == balanceType && BalancersBuilt(s, j + 1)
  }

  predicate Meets(s: Step, g: Goal) {
    match g
    case Named(name, m) => PluginName(s.name) == name && Reaches(s, m)
    case Default(m) => SetDefault(s.default) && Reaches(s, m)
    case Balancer(balanceType) => Balances(s, balanceType, |InEffect(s.balancers)|)
  }

  // The last call so far that met the goal.
  function LastMeeting(run: seq<Step>, g: Goal): Option<nat> {
    if run == [] then None
    else if Meets(run[|run| - 1], g) then Some(|run| - 1)
    else LastMeeting(run[..|run| - 1], g)
  }

  function Get(table: map<string, nat>, name: string): Option<nat> {
    if name in table then Some(table[name]) else None
  }

  // What the tables must be after a run: each entry and each default is the work of the
  // last call that got far enough to install it.
  ghost predicate Reflects(t: Tables, run: seq<Step>) {
    && (forall name :: Get(t.discovery, name) == LastMeeting(run, Named(name, DiscoveryDone)))
    && (forall name :: Get(t.router, name) == LastMeeting(run, Named(name, RouterDone)))
    && (forall name :: Get(t.breaker, name) == LastMeeting(run, Named(name, AllDone)))
    && (forall name :: Get(t.selector, name) == LastMeeting(run, Named(name, AllDone)))
    && (forall balanceType :: Get(t.balancer, balanceType) == LastMeeting(run, Balancer(balanceType)))
    && t.defaultDiscovery == LastMeeting(run, Default(DiscoveryDone))
    && t.defaultRouter == LastMeeting(run, Default(RouterDone))
    && t.defaultBalancer == LastMeeting(run, Default(FirstBalancerDone))
    && t.defaultBreaker == LastMeeting(run, Default(AllDone))
  }

  // ----- consequences ---------------------------------------------------------------------

  function Stamp(o: Option<nat>): int {
    if o.Some? then o.value else -1
  }

  // The stricter goal was met no later; the two were last met by the same call exactly when
  // the last call to meet the weaker one met both.
  lemma {:induction false} StricterIsOlder(run: seq<Step>, strict: Goal, weak: Goal)
    requires forall s <- run :: Meets(s, strict) ==> Meets(s, weak)
    ensures Stamp(LastMeeting(run, strict)) <= Stamp(LastMeeting(run, weak)) < |run|
    ensures LastMeeting(run, strict) == LastMeeting(run, weak) <==>
            (LastMeeting(run, weak).Some? ==> Meets(run[LastMeeting(run, weak).value], strict))
    decreases |run|
  {
    if run != [] && !Meets(run[|run| - 1], weak) {
      StricterIsOlder(run[..|run| - 1], strict, weak);
    } else if run != [] && !Meets(run[|run| - 1], strict) {
      StricterIsOlder(run[..|run| - 1], strict, weak);
    }
  }

  // After every run of setups, however they failed, the default components get no newer from
  // discovery to router to balancer to breaker; and they all come from one setup exactly
  // when the latest default setup that installed anything completed.
  lemma DefaultsInOrder(t: Tables, run: seq<Step>)
    requires Reflects(t, run)
    ensures Stamp(t.defaultBreaker) <= Stamp(t.defaultBalancer) <= Stamp(t.defaultRouter) <= Stamp(t.defaultDiscovery)
    ensures Stamp(t.defaultDiscovery) < |run|
    ensures t.defaultBreaker == t.defaultBalancer == t.defaultRouter == t.defaultDiscovery <==>
            (t.defaultDiscovery.Some? ==> Completed(run[t.defaultDiscovery.value]))
  {
    LastMeets(run, Default(DiscoveryDone));
    StricterIsOlder(run, Default(RouterDone), Default(DiscoveryDone));
    StricterIsOlder(run, Default(FirstBalancerDone), Default(RouterDone));
    StricterIsOlder(run, Default(AllDone), Default(FirstBalancerDone));
    StricterIsOlder(run, Default(AllDone), Default(DiscoveryDone));
  }

  // The same under each plugin name, with the selector always as new as the breaker.
  lemma NamedInOrder(t: Tables, run: seq<Step>, name: string)
    requires Reflects(t, run)
    ensures Get(t.selector, name) == Get(t.breaker, name)
    ensures Stamp(Get(t.breaker, name)) <= Stamp(Get(t.router, name)) <= Stamp(Get(t.discovery, name)) < |run|
    ensures Get(t.breaker, name) == Get(t.router, name) == Get(t.discovery, name) <==>
            (name in t.discovery ==> Completed(run[t.discovery[name]]))
  {
    LastMeets(run, Named(name, DiscoveryDone));
    StricterIsOlder(run, Named(name, RouterDone), Named(name, DiscoveryDone));
    StricterIsOlder(run, Named(name, AllDone), Named(name, RouterDone));
    StricterIsOlder(run, Named(name, AllDone), Named(name, DiscoveryDone));
  }

  lemma {:induction false} LastMeets(run: seq<Step>, g: Goal)
    ensures var last := LastMeeting(run, g);
            last.Some? ==> last.value < |run| && Meets(run[last.value], g)
    decreases |run|
  {
    if run != [] && !Meets(run[|run| - 1], g) {
      LastMeets(run[..|run| - 1], g);
    }
  }

  lemma LastAppend(run: seq<Step>, s: Step, g: Goal)
    ensures LastMeeting(run + [s], g) == if Meets(s, g) then Some(|run|) else LastMeeting(run, g)
  {
    assert (run + [s])[..|run|] == run;
  }

  // ----- the setups -------------------------------------------------------------------------

  // A plugin configuration; setting up fills in its balancers.
  class Config {
    const name: string
    const default: Option<bool>
    var balancers: seq<string>

    constructor (name: string, default: Option<bool>, balancers: seq<string>)
      ensures this.name == name && this.default == default && this.balancers == balancers
    {
      this.name, this.default, this.balancers := name, default, balancers;
    }
  }

  // What one call makes of the defaults: nothing if the configuration says no, and else each
  // component it built, the first balancer asked for among them.
  predicate DefaultsAsConfigured(before: Tables, after: Tables, s: Step, id: nat) {
    if s.default == Some(false) then
      && after.defaultDiscovery == before.defaultDiscovery && after.defaultRouter == before.defaultRouter
      && after.defaultBalancer == before.defaultBalancer && after.defaultBreaker == before.defaultBreaker
      && after.defaultBalancerType == before.defaultBalancerType
    else
      var first := RouterBuilt(s) && s.sdk.balancer(InEffect(s.balancers)[0]);
      && after.defaultDiscovery == (if s.sdk.context then Some(id) else before.defaultDiscovery)
      && after.defaultRouter == (if RouterBuilt(s) then Some(id) else before.defaultRouter)
      && after.defaultBalancer == (if first then Some(id) else before.defaultBalancer)
      && after.defaultBalancerType == (if first then Some(InEffect(s.balancers)[0]) else before.defaultBalancerType)
      && after.defaultBreaker == (if Completed(s) then Some(id) else before.defaultBreaker)
  }

  // What one call makes of the tables.
  ghost predicate Installs(before: Tables, after: Tables, s: Step, id: nat) {
    && after.discovery == (if DiscoveryBuilt(s) then before.discovery[PluginName(s.name) := id] else before.discovery)
    && after.router == (if RouterBuilt(s) then before.router[PluginName(s.name) := id] else before.router)
    && after.breaker == (if Completed(s) then before.breaker[PluginName(s.name) := id] else before.breaker)
    && after.selector == (if Completed(s) then before.selector[PluginName(s.name) := id] else before.selector)
    && (forall t :: Get(after.balancer, t) == if Meets(s, Balancer(t)) then Some(id) else Get(before.balancer, t))
    && DefaultsAsConfigured(before, after, s, id)
  }

  // What it makes of the tables by name, in terms of the configuration alone.
  ghost predicate TablesAsConfigured(before: Tables, after: Tables, s: Step, id: nat, ok: bool) {
    var key := if s.name != "" then s.name else "polarismesh";
    && (forall n :: Get(after.discovery, n) == if n == key && s.sdk.context then Some(id) else Get(before.discovery, n))
    && (forall n :: Get(after.router, n) == if n == key && RouterBuilt(s) then Some(id) else Get(before.router, n))
    && (forall n :: Get(after.breaker, n) == if n == key && ok then Some(id) else Get(before.breaker, n))
    && (forall n :: Get(after.selector, n) == if n == key && ok then Some(id) else Get(before.selector, n))
  }

  lemma CompletedWhenAllFound(s: Step)
    ensures Completed(s) <==> RouterBuilt(s) && forall t <- InEffect(s.balancers) :: s.sdk.balancer(t)
  {
    var names := InEffect(s.balancers);
    assert forall t <- names :: exists j :: 0 <= j < |names| && names[j] == t;
    assert forall j :: 0 <= j < |names| ==> names[j] in names;
  }

  // A balancer type is installed exactly when it is asked for, and it and all asked for
  // before it are found.
  lemma BalancersInTurn(s: Step, t: string)
    ensures var names := InEffect(s.balancers);
            Meets(s, Balancer(t)) <==>
            RouterBuilt(s) && exists j :: 0 <= j < |names| && names[j] == t
                                          && forall k :: 0 <= k <= j ==> s.sdk.balancer(names[k])
  {
    var names := InEffect(s.balancers);
    if j :| 0 <= j < |names| && names[j] == t && RouterBuilt(s)
            && forall k :: 0 <= k <= j ==> s.sdk.balancer(names[k]) {
      assert BalancersBuilt(s, j + 1);
    }
  }

  lemma InstalledUnderItsName(before: Tables, after: Tables, s: Step, id: nat)
    requires Installs(before, after, s, id)
    ensures TablesAsConfigured(before, after, s, id, Completed(s))
  {
  }

  lemma InstallsReflects(before: Tables, after: Tables, run: seq<Step>, s: Step)
    requires Reflects(before, run) && Installs(before, after, s, |run|)
    ensures Reflects(after, run + [s])
  {
    forall name
      ensures Get(after.discovery, name) == LastMeeting(run + [s], Named(name, DiscoveryDone))
      ensures Get(after.router, name) == LastMeeting(run + [s], Named(name, RouterDone))
      ensures Get(after.breaker, name) == LastMeeting(run + [s], Named(name, AllDone))
      ensures Get(after.selector, name) == LastMeeting(run + [s], Named(name, AllDone))
    {
      LastAppend(run, s, Named(name, DiscoveryDone));
      LastAppend(run, s, Named(name, RouterDone));
      LastAppend(run, s, Named(name, AllDone));
    }
    forall balanceType
      ensures Get(after.balancer, balanceType) == LastMeeting(run + [s], Balancer(balanceType))
    {
      LastAppend(run, s, Balancer(balanceType));
    }
    LastAppend(run, s, Default(DiscoveryDone));
    LastAppend(run, s, Default(RouterDone));
    LastAppend(run, s, Default(FirstBalancerDone));
    LastAppend(run, s, Default(AllDone));
  }

  // The framework's global registries, with the history of the setups so far.
  class Framework {
    var tables: Tables
    ghost var run: seq<Step>

    ghost predicate Valid()
      reads this
    {
      Reflects(tables, run)
    }

    constructor ()
      ensures Valid() && run == []
    {
      tables, run := EMPTY, [];
    }

    method SetupDiscovery(name: string, id: nat, setDefault: bool)
      modifies this`tables
      ensures tables == old(tables).(discovery := old(tables).discovery[PluginName(name) := id],
                                     defaultDiscovery := if setDefault then Some(id) else old(tables).defaultDiscovery)
    {
      var key := if name == "" then "polarismesh" else name;
      tables := tables.(discovery := tables.discovery[key := id]);
      if setDefault {
        tables := tables.(defaultDiscovery := Some(id));
      }
    }

    method SetupRouter(name: string, id: nat, setDefault: bool, sdk: Sdk) returns (ok: bool)
      modifies this`tables
      ensures ok <==> forall p: RouterPlugin :: sdk.router(p)
      ensures tables == if !ok then old(tables) else
                          old(tables).(router := old(tables).router[PluginName(name) := id],
                                       defaultRouter := if setDefault then Some(id) else old(tables).defaultRouter)
    {
      for i := 0 to |ROUTER_PLUGINS|
        invariant forall j :: 0 <= j < i ==> sdk.router(ROUTER_PLUGINS[j])
      {
        if !sdk.router(ROUTER_PLUGINS[i]) {
          return false;
        }
      }
      forall p: RouterPlugin
        ensures sdk.router(p)
      {
        assert sdk.router(ROUTER_PLUGINS[Position(p)]);
      }
      var key := "polarismesh";
      if name != "" {
        key := name;
      }
      tables := tables.(router := tables.router[key := id]);
      if setDefault {
        tables := tables.(defaultRouter := Some(id));
      }
      return true;
    }

    method SetupBalancer(balanceType: string, id: nat, setDefault: bool, sdk: Sdk) returns (ok: bool)
      modifies this`tables
      ensures ok <==> sdk.balancer(balanceType)
      ensures tables == if !ok then old(tables) else
                          old(tables).(balancer := old(tables).balancer[balanceType := id],
                                       defaultBalancer := if setDefault then Some(id) else old(tables).defaultBalancer,
                                       defaultBalancerType :=
                                         if setDefault then Some(balanceType) else old(tables).defaultBalancerType)
    {
      if !sdk.balancer(balanceType) {
        return false;
      }
      tables := tables.(balancer := tables.balancer[balanceType := id]);
      if setDefault {
        tables := tables.(defaultBalancer := Some(id), defaultBalancerType := Some(balanceType));
      }
      return true;
    }

    method SetupLoadbalance(conf: Config, id: nat, setDefault: bool, sdk: Sdk, ghost s: Step) returns (ok: bool)
      requires s == Step(conf.name, conf.default, conf.balancers, sdk) && RouterBuilt(s)
      modifies this`tables, conf
      ensures conf.balancers == if old(conf.balancers) == [] then DEFAULT_BALANCERS else old(conf.balancers)
      ensures ok <==> Completed(s)
      ensures tables == old(tables).(balancer := tables.balancer, defaultBalancer := tables.defaultBalancer,
                                     defaultBalancerType := tables.defaultBalancerType)
      ensures forall t :: Get(tables.balancer, t) ==
                if Meets(s, Balancer(t)) then Some(id) else Get(old(tables).balancer, t)
      ensures tables.defaultBalancer
              == if setDefault && BalancersBuilt(s, 1) then Some(id) else old(tables).defaultBalancer
      ensures tables.defaultBalancerType
              == if setDefault && BalancersBuilt(s, 1) then Some(InEffect(s.balancers)[0])
                 else old(tables).defaultBalancerType
    {
      if |conf.balancers| == 0 {
        conf.balancers := conf.balancers + DEFAULT_BALANCERS;
      }
      for index := 0 to |conf.balancers|
        invariant conf.balancers == InEffect(s.balancers)
        invariant BalancersBuilt(s, index)
        invariant tables == old(tables).(balancer := tables.balancer, defaultBalancer := tables.defaultBalancer,
                                         defaultBalancerType := tables.defaultBalancerType)
        invariant forall t :: Get(tables.balancer, t) ==
                    if Balances(s, t, index) then Some(id) else Get(old(tables).balancer, t)
        invariant tables.defaultBalancer == if setDefault && index > 0 then Some(id) else old(tables).defaultBalancer
        invariant tables.defaultBalancerType
                  == if setDefault && index > 0 then Some(InEffect(s.balancers)[0]) else old(tables).defaultBalancerType
      {
        var balanceType := conf.balancers[index];
        ghost var before := tables.balancer;
        var isDefault := setDefault && index == 0;
        var found := SetupBalancer(balanceType, id, isDefault, sdk);
        if !found {
          BalancesUpTo(s, index);
          return false;
        }
        assert BalancersBuilt(s, index + 1);
        assert tables.balancer == before[balanceType := id];
        forall t
          ensures Get(tables.balancer, t) ==
                  if Balances(s, t, index + 1) then Some(id) else Get(old(tables).balancer, t)
        {
          assert Get(tables.balancer, t) == if t == balanceType then Some(id) else Get(before, t);
          OneMoreBalancer(s, t, index);
        }
      }
      return true;
    }

    // Which setup's breaker is in force; what a breaker decides is CircuitBreaker.Breakers.Setup.
    method SetupBreaker(name: string, id: nat, setDefault: bool)
      modifies this`tables
      ensures tables == old(tables).(breaker := old(tables).breaker[PluginName(name) := id],
                                     defaultBreaker := if setDefault then Some(id) else old(tables).defaultBreaker)
    {
      var key := "polarismesh";
      if name != "" {
        key := name;
      }
      tables := tables.(breaker := tables.breaker[key := id]);
      if setDefault {
        tables := tables.(defaultBreaker := Some(id));
      }
    }

    method SetupSelector(name: string, id: nat)
      modifies this`tables
      ensures tables == old(tables).(selector := old(tables).selector[PluginName(name) := id])
    {
      var key := if name == "" then "polarismesh" else name;
      tables := tables.(selector := tables.selector[key := id]);
    }

    // The components in order, until one cannot be built.
    method SetupComponents(conf: Config, id: nat, sdk: Sdk, ghost s: Step) returns (ok: bool)
      requires s == Step(conf.name, conf.default, conf.balancers, sdk) && DiscoveryBuilt(s)
      modifies this`tables, conf
      ensures ok <==> Completed(s)
      ensures Installs(old(tables), tables, s, id)
    {
      var setDefault := if conf.default.Some? then conf.default.value else true;
      SetupDiscovery(conf.name, id, setDefault);
      ok := SetupRouter(conf.name, id, setDefault, sdk);
      if !ok {
        return false;
      }
      ok := SetupLoadbalance(conf, id, setDefault, sdk, s);
      if !ok {
        return false;
      }
      SetupBreaker(conf.name, id, setDefault);
      SetupSelector(conf.name, id);
      return true;
    }

    // One setup, whatever becomes of it, leaves the tables reflecting the run.
    method SetupWithConfig(conf: Config, sdk: Sdk, id: nat) returns (ok: bool)
      requires Valid() && id == |run|
      modifies this, conf
      ensures Valid()
      ensures run == old(run) + [Step(conf.name, conf.default, old(conf.balancers), sdk)]
      ensures var s := run[|run| - 1];
              && (ok <==> RouterBuilt(s) && forall t <- InEffect(s.balancers) :: sdk.balancer(t))
              && TablesAsConfigured(old(tables), tables, s, id, ok)
              && DefaultsAsConfigured(old(tables), tables, s, id)
    {
      ghost var s := Step(conf.name, conf.default, conf.balancers, sdk);
      ghost var before := tables;
      if !sdk.context {
        ok := false;
      } else {
        ok := SetupComponents(conf, id, sdk, s);
      }
      InstallsReflects(before, tables, run, s);
      CompletedWhenAllFound(s);
      InstalledUnderItsName(before, tables, s, id);
      run := run + [s];
    }
  }

  lemma OneMoreBalancer(s: Step, t: string, index: nat)
    requires index < |InEffect(s.balancers)| && BalancersBuilt(s, index + 1)
    ensures Balances(s, t, index + 1) <==> Balances(s, t, index) || t == InEffect(s.balancers)[index]
  {
  }

  // If balancer number `index` is missing, no later one is installed.
  lemma BalancesUpTo(s: Step, index: nat)
    requires index < |InEffect(s.balancers)| && !s.sdk.balancer(InEffect(s.balancers)[index])
    ensures !Completed(s) && (index == 0 ==> !BalancersBuilt(s, 1))
    ensures forall t :: Balances(s, t, |InEffect(s.balancers)|) <==> Balances(s, t, index)
  {
  }
}
