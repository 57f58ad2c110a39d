/** The goroutines of a Registry as a transition system: the health-check watcher,
    which pushes statuses into a channel of capacity one; the heartbeat loop, which
    receives them; the ticker; and the calls made to the Polaris provider.

    A schedule is any sequence of enabled actions, so a theorem about all schedules
    is a theorem about all interleavings, timings and provider replies. */
module HeartbeatProtocol {
  import opened Wrappers
  import opened Statuses

  // What the registry's configuration fixes. Times are in nanoseconds. time.NewTicker
  // panics on a period that is not positive.
  datatype Params = Params(
    period: int,
    enableRegister: bool,
    namespace: string,
    service: string,
    token: string,
    configuredId: string
  ) {
    predicate Valid() {
      period > 0
    }
  }

  // Where an instance lives, as every provider request spells it.
  datatype Endpoint = Endpoint(namespace: string, service: string, token: string, host: string, port: int)

  datatype Call =
    | RegisterCall(endpoint: Endpoint, reply: Option<string>)
    | HeartbeatCall(endpoint: Endpoint, instanceId: string, at: nat)
    | DeregisterCall(endpoint: Endpoint, instanceId: string)

  // The watcher callback: about to try the send, or about to drain the full channel.
  datatype Watcher = Idle | Try(status: Status) | Drain(status: Status)

  // The heartbeat loop. Starting: the heartbeat of newTicker is out, the ticker not yet created.
  datatype Consumer = NotStarted | FirstSelect | Handling(status: Status) | Starting | Loop

  /** A ticker since its creation at `created`. Deadline number k lies k periods later;
      `due` is the number of the last deadline the timer has dealt with. Each deadline
      up to it was skipped by a late timer, lost because a tick was still buffered,
      taken by the loop, or is the buffered tick. */
  datatype Window = Window(
    created: nat,
    due: nat,
    skipped: nat,
    overflowed: nat,
    taken: nat,
    buffered: bool
  )

  datatype Ticker = Frozen | Running(window: Window)

  datatype Closed = Closed(window: Window, end: nat)

  /** The channel and its only sender, with the history of the statuses it was given. */
  datatype Link = Link(
    watcher: Watcher,
    tries: nat,               // send attempts for the status being published
    drains: nat,              // drains for the status being published
    mailbox: seq<Status>,
    published: seq<Status>,
    dropped: seq<Status>
  )

  /** The heartbeat loop and its ticker, with the history of the statuses it received. */
  datatype Beater = Beater(
    consumer: Consumer,
    consumed: seq<Status>,
    byDefault: bool,          // the loop began through the default branch
    ticker: Ticker,
    starts: nat,              // calls of newTicker
    closed: seq<Closed>       // stopped tickers
  )

  /** What the provider was told. */
  datatype Account = Account(host: string, port: int, instanceId: string, calls: seq<Call>)

  datatype State = State(link: Link, beater: Beater, account: Account, now: nat)

  datatype WatcherStep = Publish(status: Status) | TrySend | DrainOne

  datatype LoopStep = TakeDefault | Handle | CreateTicker | TakeTick | Fire(deadline: nat)

  datatype Action =
    | Watch(sending: WatcherStep)
    | Pulse(step: LoopStep)
    | Receive
    | Register(host: string, port: int, reply: Option<string>)
    | Deregister
    | Advance(delay: nat)

  function Boot(p: Params): State {
    State(Link(Idle, 0, 0, [], [], []),
          Beater(NotStarted, [], false, Frozen, 0, []),
          Account("", 0, p.configuredId, []),
          0)
  }

  function EndpointOf(p: Params, a: Account): Endpoint {
    Endpoint(p.namespace, p.service, p.token, a.host, a.port)
  }

  predicate AtSelect(b: Beater) {
    b.consumer.FirstSelect? || b.consumer.Loop?
  }

  predicate LinkEnabled(l: Link, a: WatcherStep) {
    match a
    case Publish(_) => l.watcher.Idle?
    case TrySend => l.watcher.Try?
    case DrainOne => l.watcher.Drain? && l.mailbox != []
  }

  // The watcher callback, one channel operation at a time.
  function LinkNext(l: Link, a: WatcherStep): Link
    requires LinkEnabled(l, a)
  {
    match a
    case Publish(status) =>
      l.(watcher := Try(status), tries := 0, drains := 0, published := l.published + [status])
    case TrySend =>
      if l.mailbox == []
      then l.(watcher := Idle, tries := l.tries + 1, mailbox := [l.watcher.status])
      else l.(watcher := Drain(l.watcher.status), tries := l.tries + 1)
    case DrainOne =>
      l.(watcher := Try(l.watcher.status), drains := l.drains + 1,
         dropped := l.dropped + [l.mailbox[0]], mailbox := l.mailbox[1..])
  }

  // TakeDefault also needs the channel to be empty; see Enabled.
  predicate BeaterEnabled(p: Params, b: Beater, now: nat, a: LoopStep) {
    match a
    case TakeDefault => b.consumer.FirstSelect?
    case Handle => b.consumer.Handling?
    case CreateTicker => b.consumer.Starting? && p.Valid()
    case TakeTick => b.consumer.Loop? && b.ticker.Running? && b.ticker.window.buffered
    case Fire(k) =>
      && b.ticker.Running?
      && b.ticker.window.due < k
      && b.ticker.window.created + k * p.period <= now
  }

  // The timer reaches deadline k; its tick is lost if the previous one is still buffered.
  function Fired(w: Window, k: nat): Window
    requires w.due < k
  {
    w.(due := k,
       skipped := w.skipped + (k - w.due - 1),
       overflowed := w.overflowed + Bit(w.buffered),
       buffered := true)
  }

  // The loop stops its ticker, calls newTicker, or does neither.
  predicate Stops(b: Beater) {
    b.consumer.Handling? && !b.consumer.status.Serving? && b.ticker.Running?
  }

  predicate Begins(b: Beater) {
    b.consumer.Handling? && b.consumer.status.Serving? && b.ticker.Frozen?
  }

  // The heartbeat loop, one select or one ticker operation at a time.
  function BeaterNext(p: Params, b: Beater, now: nat, a: LoopStep): Beater
    requires BeaterEnabled(p, b, now, a)
  {
    match a
    case TakeDefault => b.(consumer := Starting, byDefault := true, starts := b.starts + 1)
    case Handle =>
      if Stops(b) then
        b.(consumer := Loop, ticker := Frozen, closed := b.closed + [Closed(b.ticker.window, now)])
      else if Begins(b) then b.(consumer := Starting, starts := b.starts + 1)
      else b.(consumer := Loop)
    case CreateTicker => b.(consumer := Loop, ticker := Running(Window(now, 0, 0, 0, 0, false)))
    case TakeTick =>
      b.(ticker := Running(b.ticker.window.(taken := b.ticker.window.taken + 1, buffered := false)))
    case Fire(k) => b.(ticker := Running(Fired(b.ticker.window, k)))
  }

  function Received(b: Beater, status: Status): Beater {
    b.(consumer := Handling(status), consumed := b.consumed + [status])
  }

  // Which steps of the loop send a heartbeat.
  predicate Beats(b: Beater, a: LoopStep) {
    a.TakeDefault? || a.TakeTick? || (a.Handle? && Begins(b))
  }

  function Beat(p: Params, a: Account, now: nat): Account {
    a.(calls := a.calls + [HeartbeatCall(EndpointOf(p, a), a.instanceId, now)])
  }

  predicate Registered(p: Params, reply: Option<string>) {
    p.enableRegister ==> reply.Some?
  }

  function RegisterNext(p: Params, a: Account, host: string, port: int, reply: Option<string>): Account {
    var a := a.(host := host, port := port);
    if !p.enableRegister then a
    else
      a.(calls := a.calls + [RegisterCall(EndpointOf(p, a), reply)],
         instanceId := if reply.Some? then reply.value else a.instanceId)
  }

  function DeregisterNext(p: Params, a: Account): Account {
    if p.enableRegister
    then a.(calls := a.calls + [DeregisterCall(EndpointOf(p, a), a.instanceId)])
    else a
  }

  predicate Enabled(p: Params, s: State, a: Action) {
    match a
    case Watch(w) => LinkEnabled(s.link, w)
    case Pulse(step) => BeaterEnabled(p, s.beater, s.now, step) && (step.TakeDefault? ==> s.link.mailbox == [])
    case Receive => AtSelect(s.beater) && s.link.mailbox != []
    case Register(_, _, _) => s.beater.consumer.NotStarted?
    case Deregister => true
    case Advance(_) => true
  }

  function Next(p: Params, s: State, a: Action): State
    requires Enabled(p, s, a)
  {
    match a
    case Watch(w) => s.(link := LinkNext(s.link, w))
    case Pulse(step) =>
      s.(beater := BeaterNext(p, s.beater, s.now, step),
         account := if Beats(s.beater, step) then Beat(p, s.account, s.now) else s.account)
    case Receive =>
      s.(link := s.link.(mailbox := s.link.mailbox[1..]), beater := Received(s.beater, s.link.mailbox[0]))
    case Register(host, port, reply) =>
      s.(account := RegisterNext(p, s.account, host, port, reply),
         beater := if Registered(p, reply) then s.beater.(consumer := FirstSelect) else s.beater)
    case Deregister => s.(account := DeregisterNext(p, s.account))
    case Advance(delay) => s.(now := s.now + delay)
  }

  predicate Legal(p: Params, s: State, schedule: seq<Action>)
    decreases |schedule|
  {
    schedule == [] ||
    (Enabled(p, s, schedule[0]) && Legal(p, Next(p, s, schedule[0]), schedule[1..]))
  }

  function Exec(p: Params, s: State, schedule: seq<Action>): State
    requires Legal(p, s, schedule)
    decreases |schedule|
  {
    if schedule == [] then s else Exec(p, Next(p, s, schedule[0]), schedule[1..])
  }

  lemma {:induction false} ExecAppend(p: Params, s: State, first: seq<Action>, second: seq<Action>)
    requires Legal(p, s, first) && Legal(p, Exec(p, s, first), second)
    ensures Legal(p, s, first + second)
    ensures Exec(p, s, first + second) == Exec(p, Exec(p, s, first), second)
    decreases |first|
  {
    if first == [] {
      assert first + second == second;
    } else {
      assert (first + second)[1..] == first[1..] + second;
      ExecAppend(p, Next(p, s, first[0]), first[1..], second);
    }
  }

  lemma {:induction false} ExecLast(p: Params, s: State, schedule: seq<Action>)
    requires schedule != [] && Legal(p, s, schedule)
    ensures var before, last := schedule[..|schedule| - 1], schedule[|schedule| - 1];
            && Legal(p, s, before) && Enabled(p, Exec(p, s, before), last)
            && Exec(p, s, schedule) == Next(p, Exec(p, s, before), last)
    decreases |schedule|
  {
    var before := schedule[..|schedule| - 1];
    if |schedule| == 1 {
      assert before == [] && schedule[1..] == [];
    } else {
      ExecLast(p, Next(p, s, schedule[0]), schedule[1..]);
      assert schedule[1..][..|schedule| - 2] == before[1..];
    }
  }
}
