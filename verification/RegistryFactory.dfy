/** From the registry plugin's configuration to registries and ticker periods. */
module RegistryFactory {
  import opened Wrappers
  import opened Statuses
  import Protocol = HeartbeatProtocol
  import Identity = HeartbeatIdentity
  import opened HeartbeatRate

  const SECOND := 1_000_000_000
  const DEFAULT_HEARTBEAT := 5
  // Seconds beyond this many overflow a duration, which is 64 bits of nanoseconds.
  const MAX_SECONDS := 9_223_372_036

  // Division as Go does it, towards zero.
  function TruncDiv(a: int, b: int): int
    requires b > 0
  {
    if a >= 0 then a / b else -((-a) / b)
  }

  function Wrap64(x: int): int {
    (x + 0x8000_0000_0000_0000) % 0x1_0000_0000_0000_0000 - 0x8000_0000_0000_0000
  }

  // Whole seconds between heartbeats, as configured in milliseconds: rounded towards zero,
  // with five seconds standing for none.
  function Whole(interval: int): int {
    var seconds := TruncDiv(interval, 1000);
    if seconds == 0 then DEFAULT_HEARTBEAT else seconds
  }

  // The period newTicker asks for.
  function TickerPeriod(interval: int): int {
    Wrap64(SECOND * Whole(interval))
  }

  lemma WholeRounds(interval: int)
    ensures -1000 < interval < 1000 ==> Whole(interval) == DEFAULT_HEARTBEAT
    ensures interval >= 1000 ==> 1000 * Whole(interval) <= interval < 1000 * Whole(interval) + 1000
    ensures interval <= -1000 ==> 1000 * Whole(interval) - 1000 < interval <= 1000 * Whole(interval)
  {
  }

  lemma WrapsAround(x: int)
    ensures -0x8000_0000_0000_0000 <= Wrap64(x) < 0x8000_0000_0000_0000
    ensures (Wrap64(x) - x) % 0x1_0000_0000_0000_0000 == 0
    ensures Wrap64(x) == x <==> -0x8000_0000_0000_0000 <= x < 0x8000_0000_0000_0000
  {
    var range := 0x1_0000_0000_0000_0000;
    var n := (x + 0x8000_0000_0000_0000) / range;
    assert Wrap64(x) - x == -n * range;
  }

  // Seconds are rounded towards zero, and none become five; the period is these seconds up
  // to a wrap-around of 64 bits. It is the seconds configured exactly when they fit a
  // duration, and also positive exactly in the range given last.
  lemma PeriodFollowsInterval(interval: int)
    ensures -1000 < interval < 1000 ==> Whole(interval) == DEFAULT_HEARTBEAT
    ensures interval >= 1000 ==> 1000 * Whole(interval) <= interval < 1000 * Whole(interval) + 1000
    ensures interval <= -1000 ==> 1000 * Whole(interval) - 1000 < interval <= 1000 * Whole(interval)
    ensures -0x8000_0000_0000_0000 <= TickerPeriod(interval) < 0x8000_0000_0000_0000
    ensures (TickerPeriod(interval) - SECOND * Whole(interval)) % 0x1_0000_0000_0000_0000 == 0
    ensures TickerPeriod(interval) == SECOND * Whole(interval) <==> -MAX_SECONDS <= Whole(interval) <= MAX_SECONDS
    ensures TickerPeriod(interval) == SECOND * Whole(interval) && TickerPeriod(interval) > 0
            <==> -1000 < interval < 1000 * (MAX_SECONDS + 1)
  {
    WholeRounds(interval);
    WrapsAround(SECOND * Whole(interval));
  }

  // Beyond the range the duration wraps around. The first such interval gives a negative
  // period, at which NewTicker panics; another gives a positive one, much too short.
  lemma OverflowingInterval()
    ensures TickerPeriod(1000 * (MAX_SECONDS + 1)) < 0
    ensures TickerPeriod(18_446_744_074_000) == 290_448_384
  {
  }

  datatype Service = Service(name: string, namespace: string, token: string, instanceId: string)

  datatype FactoryConfig = FactoryConfig(enableRegister: bool, heartbeatInterval: int, services: seq<Service>)

  datatype Config = Config(service: Service, enableRegister: bool, period: int)

  function ConfigOf(conf: FactoryConfig, service: Service): Config {
    Config(service, conf.enableRegister, TickerPeriod(conf.heartbeatInterval))
  }

  // What the registry's goroutines run with.
  function ParamsOf(config: Config): Protocol.Params {
    Protocol.Params(config.period, config.enableRegister, config.service.namespace, config.service.name,
                    config.service.token, config.service.instanceId)
  }

  predicate InRange(conf: FactoryConfig) {
    -1000 < conf.heartbeatInterval < 1000 * (MAX_SECONDS + 1)
  }

  // A configured registry can create its ticker, with the period configured, exactly when
  // the interval is in range. Then the load it puts on the provider is in terms of the
  // configuration; and when it cannot, it sends at most one heartbeat ever.
  lemma ConfiguredLoad(conf: FactoryConfig, service: Service, schedule: seq<Protocol.Action>)
    requires Protocol.Legal(ParamsOf(ConfigOf(conf, service)),
                            Protocol.Boot(ParamsOf(ConfigOf(conf, service))), schedule)
    ensures var p := ParamsOf(ConfigOf(conf, service));
            p.Valid() && p.period == SECOND * Whole(conf.heartbeatInterval) <==> InRange(conf)
    ensures var p := ParamsOf(ConfigOf(conf, service));
            var s := Protocol.Exec(p, Protocol.Boot(p), schedule);
            var sent := Heartbeats(s.account.calls);
            && (InRange(conf) ==>
                  sent <= Bit(s.beater.byDefault) + Rises(s.beater.byDefault, s.link.published)
                          + s.now / (SECOND * Whole(conf.heartbeatInterval)))
            && (!p.Valid() ==> sent <= 1)
  {
    var p := ParamsOf(ConfigOf(conf, service));
    PeriodFollowsInterval(conf.heartbeatInterval);
    if p.Valid() {
      HeartbeatLoad(p, schedule);
    } else {
      PanicsAtFirstStart(p, schedule, []);
    }
  }

  // And it speaks for the service configured: every call has the service's namespace, name
  // and token; with registration off they are all heartbeats in the configured id; with it
  // on, every Register and Deregister is a request.
  lemma ConfiguredIdentity(conf: FactoryConfig, service: Service, schedule: seq<Protocol.Action>)
    requires Protocol.Legal(ParamsOf(ConfigOf(conf, service)),
                            Protocol.Boot(ParamsOf(ConfigOf(conf, service))), schedule)
    ensures var p := ParamsOf(ConfigOf(conf, service));
            var calls := Protocol.Exec(p, Protocol.Boot(p), schedule).account.calls;
            && (forall c <- calls :: c.endpoint.namespace == service.namespace
                                     && c.endpoint.service == service.name && c.endpoint.token == service.token)
            && (!conf.enableRegister ==> forall c <- calls :: c.HeartbeatCall? && c.instanceId == service.instanceId)
            && (conf.enableRegister ==> Identity.Requests(calls) == Identity.Requested(p, schedule))
  {
    var p := ParamsOf(ConfigOf(conf, service));
    var _ := Identity.IdentityOverRun(p, schedule);
    Identity.RequestsOverRun(p, schedule);
    Identity.SpeaksForRun(p, Protocol.Boot(p), schedule);
  }

  // The global table of registries after registering the services one by one.
  function Registered(table: map<string, Config>, conf: FactoryConfig, services: seq<Service>): map<string, Config> {
    if services == [] then table
    else
      var last := services[|services| - 1];
      Registered(table, conf, services[..|services| - 1])[last.name := ConfigOf(conf, last)]
  }

  // Every service gets a registry under its own name; of several with one name the last
  // one wins. Names not configured keep what they had.
  lemma {:induction false} LastServiceWins(table: map<string, Config>, conf: FactoryConfig, services: seq<Service>,
                                           i: nat, other: string)
    requires i < |services|
    requires forall j :: i < j < |services| ==> services[j].name != services[i].name
    ensures var after := Registered(table, conf, services);
            && services[i].name in after && after[services[i].name] == ConfigOf(conf, services[i])
            && ((forall s <- services :: s.name != other) ==>
                  (other in after <==> other in table) && (other in table ==> after[other] == table[other]))
    decreases |services|
  {
    var rest := services[..|services| - 1];
    if i < |rest| {
      LastServiceWins(table, conf, rest, i, other);
    } else if rest != [] {
      LastServiceWins(table, conf, rest, |rest| - 1, other);
    }
  }

  // The framework's global table of registries.
  class Registries {
    var table: map<string, Config>

    constructor ()
      ensures table == map[]
    {
      table := map[];
    }

    method RegisterAll(conf: FactoryConfig)
      modifies this
      ensures table == Registered(old(table), conf, conf.services)
    {
      for n := 0 to |conf.services|
        invariant table == Registered(old(table), conf, conf.services[..n])
      {
        assert conf.services[..n + 1][..n] == conf.services[..n];
        table := table[conf.services[n].name := ConfigOf(conf, conf.services[n])];
      }
      assert conf.services[..|conf.services|] == conf.services;
    }
  }
}
