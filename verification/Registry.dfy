/** The Registry object of registry/registry.go. Its two goroutines keep the loops of the
    source; wherever another goroutine, a timer or the clock can intervene, the caller
    chooses what they do. Each loop is proved to be a schedule of the transition system,
    so everything proved of schedules holds of it. */
module Registry {
  import opened Wrappers
  import opened Statuses
  import opened HeartbeatProtocol
  import opened HeartbeatDelivery
  import opened HeartbeatLoop

  lemma Outcome(p: Params, before: State, trace: seq<Action>, s: State)
    requires Leads(p, before, trace, s) && !Blocked(before.link)
    ensures Safe(s)
    ensures Blocked(s.link) <==> Robbed(p, before, trace)
  {
    SafeRun(p, before, trace);
    BlockRun(p, before, trace);
  }

  class Registry {
    const params: Params
    // The fields of the source's struct.
    var host: string
    var port: int
    var instanceId: string
    var statuses: seq<Status>
    // The provider, the clock and the loop's local ticker.
    var calls: seq<Call>
    var now: nat
    var ticker: Ticker
    // Where each goroutine stands.
    var watcher: Watcher
    var consumer: Consumer
    // Histories.
    ghost var tries: nat
    ghost var drains: nat
    ghost var published: seq<Status>
    ghost var dropped: seq<Status>
    ghost var consumed: seq<Status>
    ghost var byDefault: bool
    ghost var starts: nat
    ghost var closed: seq<Closed>

    ghost function Abs(): State
      reads this
    {
      State(Link(watcher, tries, drains, statuses, published, dropped),
            Beater(consumer, consumed, byDefault, ticker, starts, closed),
            Account(host, port, instanceId, calls),
            now)
    }

    constructor (params: Params)
      ensures this.params == params
      ensures Abs() == Boot(params)
    {
      this.params := params;
      host, port, instanceId, statuses := "", 0, params.configuredId, [];
      calls, now, ticker := [], 0, Frozen;
      watcher, consumer := Idle, NotStarted;
      tries, drains, published, dropped := 0, 0, [], [];
      consumed, byDefault, starts, closed := [], false, 0, [];
    }

    // ----- registration -------------------------------------------------------

    function Self(): Endpoint
      reads this
    {
      Endpoint(params.namespace, params.service, params.token, host, port)
    }

    method RegisterInstance(host: string, port: int, reply: Option<string>) returns (ok: bool)
      requires consumer.NotStarted?
      modifies this
      ensures Abs() == Next(params, old(Abs()), Register(host, port, reply))
      ensures ok <==> !consumer.NotStarted?
    {
      this.host, this.port := host, port;
      if params.enableRegister {
        calls := calls + [RegisterCall(Self(), reply)];
        if reply.None? {
          return false;
        }
        instanceId := reply.value;
      }
      consumer := FirstSelect;
      ok := true;
    }

    method DeregisterInstance()
      modifies this
      ensures Abs() == Next(params, old(Abs()), Deregister)
    {
      if !params.enableRegister {
        return;
      }
      calls := calls + [DeregisterCall(Self(), instanceId)];
    }

    // ----- the watcher callback ------------------------------------------------

    method TrySending() returns (sent: bool)
      requires watcher.Try?
      modifies this
      ensures Abs() == Next(params, old(Abs()), Watch(TrySend))
      ensures sent <==> watcher.Idle?
    {
      tries := tries + 1;
      if statuses == [] {
        statuses := [watcher.status];
        watcher := Idle;
        sent := true;
      } else {
        watcher := Drain(watcher.status);
        sent := false;
      }
    }

    method DrainOldest()
      requires watcher.Drain? && statuses != []
      modifies this
      ensures Abs() == Next(params, old(Abs()), Watch(DrainOne))
    {
      drains, dropped := drains + 1, dropped + [statuses[0]];
      statuses := statuses[1..];
      watcher := Try(watcher.status);
    }

    // The callback given to healthcheck.Watch, with `others` acting before each of its
    // channel operations. It returns with the status in the channel, unless it blocks.
    method OnStatus(status: Status, others: nat -> seq<Action>) returns (blocked: bool, ghost trace: seq<Action>)
      requires Safe(Abs()) && watcher.Idle?
      modifies this
      ensures Leads(params, old(Abs()), trace, Abs())
      ensures Safe(Abs()) && published == old(published) + [status]
      ensures blocked <==> Blocked(Abs().link)
      ensures blocked <==> Robbed(params, old(Abs()), trace)
      ensures !blocked ==> watcher.Idle? && statuses == [status] && tries <= 2 && drains <= 1
    {
      ghost var before := Abs();
      LeadsOn(params, before, [], Abs(), Watch(Publish(status)));
      watcher, tries, drains, published := Try(status), 0, 0, published + [status];
      trace := [] + [Watch(Publish(status))];
      var turn := 0;
      while true
        invariant Leads(params, before, trace, Abs())
        invariant watcher == Try(status) && |statuses| <= 1
        invariant tries == drains <= 1 && (tries == 1 ==> statuses == [])
        invariant published == old(published) + [status]
        decreases |statuses|
      {
        var sent;
        sent, blocked, trace := SelectSend(others, turn, before, trace);
        if sent || blocked {
          Outcome(params, before, trace, Abs());
          return blocked, trace;
        }
        turn := turn + 2;
      }
    }

    // One round of the callback's loop: send, or else make room by draining.
    method SelectSend(others: nat -> seq<Action>, turn: nat, ghost before: State, ghost past: seq<Action>)
      returns (sent: bool, blocked: bool, ghost trace: seq<Action>)
      requires Leads(params, before, past, Abs()) && watcher.Try? && |statuses| <= 1
      modifies this
      ensures Leads(params, before, trace, Abs()) && published == old(published)
      ensures tries == old(tries) + 1 && drains == old(drains) + Bit(!sent && !blocked)
      ensures sent ==> !blocked && watcher.Idle? && statuses == [old(watcher).status]
      ensures blocked <==> Blocked(Abs().link)
      ensures !sent && !blocked ==> watcher == old(watcher) && statuses == [] && old(statuses) != []
    {
      trace := LeadsMeddled(TheWatcher, params, before, past, Abs(), others(turn));
      Interfere(TheWatcher, others(turn));
      LeadsOn(params, before, trace, Abs(), Watch(TrySend));
      sent := TrySending();
      trace := trace + [Watch(TrySend)];
      if sent {
        return true, false, trace;
      }
      trace := LeadsMeddled(TheWatcher, params, before, trace, Abs(), others(turn + 1));
      Interfere(TheWatcher, others(turn + 1));
      if statuses == [] {
        return false, true, trace;
      }
      LeadsOn(params, before, trace, Abs(), Watch(DrainOne));
      DrainOldest();
      trace := trace + [Watch(DrainOne)];
      blocked := false;
    }

    // ----- the heartbeat loop --------------------------------------------------

    method HeartBeat()
      modifies this`calls
      ensures calls == old(calls) + [HeartbeatCall(Self(), instanceId, now)]
    {
      calls := calls + [HeartbeatCall(Self(), instanceId, now)];
    }

    method StartByDefault()
      requires consumer.FirstSelect? && statuses == []
      modifies this
      ensures Abs() == Next(params, old(Abs()), Pulse(TakeDefault))
    {
      HeartBeat();
      consumer, byDefault, starts := Starting, true, starts + 1;
    }

    method ReceiveStatus()
      requires AtSelect(Abs().beater) && statuses != []
      modifies this
      ensures Abs() == Next(params, old(Abs()), Receive)
    {
      consumer, consumed := Handling(statuses[0]), consumed + [statuses[0]];
      statuses := statuses[1..];
    }

    method React()
      requires consumer.Handling?
      modifies this
      ensures Abs() == Next(params, old(Abs()), Pulse(Handle))
      ensures consumer.Loop? || consumer.Starting?
    {
      if !consumer.status.Serving? && ticker.Running? {
        closed := closed + [Closed(ticker.window, now)];
        ticker := Frozen;
        consumer := Loop;
      } else if consumer.status.Serving? && ticker.Frozen? {
        HeartBeat();
        consumer, starts := Starting, starts + 1;
      } else {
        consumer := Loop;
      }
    }

    method NewTicker()
      requires consumer.Starting? && params.Valid()
      modifies this
      ensures Abs() == Next(params, old(Abs()), Pulse(CreateTicker))
    {
      ticker := Running(Window(now, 0, 0, 0, 0, false));
      consumer := Loop;
    }

    method BeatOnTick()
      requires consumer.Loop? && ticker.Running? && ticker.window.buffered
      modifies this
      ensures Abs() == Next(params, old(Abs()), Pulse(TakeTick))
    {
      ticker := Running(ticker.window.(taken := ticker.window.taken + 1, buffered := false));
      HeartBeat();
    }

    // The heartBeats goroutine through as many selects as `preferTick` is long, with
    // `others` acting before each of its operations. A select with nothing ready waits
    // for its next turn; with both ready it takes what `preferTick` says.
    method HeartBeats(others: Others, preferTick: seq<bool>) returns (ghost trace: seq<Action>)
      requires Safe(Abs()) && consumer.FirstSelect? && params.Valid()
      modifies this
      ensures Leads(params, old(Abs()), trace, Abs())
      ensures Safe(Abs()) && consumer.Loop?
      ensures ticker.Running? <==> Wanted(Abs().beater)
      ensures Abs() == AfterSelects(params, AfterFirstSelect(params, old(Abs()), others), others, preferTick).s
    {
      trace := LoopIsSchedule(params, Abs(), others, preferTick);
      var turn := FirstSelecting(others);
      Selecting(others, turn, preferTick);
    }

    // The first select, which does not wait.
    method FirstSelecting(others: Others) returns (next: nat)
      requires consumer.FirstSelect? && params.Valid()
      modifies this
      ensures Progress(Abs(), next) == AfterFirstSelect(params, old(Abs()), others)
    {
      Interfere(TheLoop, others(0));
      if statuses != [] {
        next := HandleStatus(others, 1);
      } else {
        StartByDefault();
        next := FinishStart(others, 1);
      }
    }

    method Selecting(others: Others, turn: nat, preferTick: seq<bool>)
      requires consumer.Loop? && params.Valid()
      modifies this
      ensures Abs() == AfterSelects(params, Progress(old(Abs()), turn), others, preferTick).s
    {
      var next := turn;
      for i := 0 to |preferTick|
        invariant consumer.Loop?
        invariant Progress(Abs(), next) == AfterSelects(params, Progress(old(Abs()), turn), others, preferTick[..i])
      {
        OneMoreSelect(params, Progress(old(Abs()), turn), others, preferTick, i);
        next := Select(others, next, preferTick[i]);
      }
      assert preferTick[..|preferTick|] == preferTick;
    }

    method Select(others: Others, turn: nat, preferTick: bool) returns (next: nat)
      requires consumer.Loop? && params.Valid()
      modifies this
      ensures Progress(Abs(), next) == AfterSelect(params, Progress(old(Abs()), turn), others, preferTick)
    {
      Interfere(TheLoop, others(turn));
      next := Serve(others, turn + 1, preferTick);
    }

    // What one further select does with what is ready.
    method Serve(others: Others, turn: nat, preferTick: bool) returns (next: nat)
      requires consumer.Loop? && params.Valid()
      modifies this
      ensures Progress(Abs(), next) == Served(params, old(Abs()), others, turn, preferTick)
    {
      next := turn;
      if ticker.Running? && ticker.window.buffered && (preferTick || statuses == []) {
        BeatOnTick();
      } else if statuses != [] {
        next := HandleStatus(others, turn);
      }
    }

    method HandleStatus(others: Others, turn: nat) returns (next: nat)
      requires AtSelect(Abs().beater) && statuses != [] && params.Valid()
      modifies this
      ensures Progress(Abs(), next) == AfterReceive(params, old(Abs()), others, turn)
    {
      ReceiveStatus();
      Interfere(TheLoop, others(turn));
      React();
      next := turn + 1;
      if consumer.Starting? {
        next := FinishStart(others, next);
      }
    }

    method FinishStart(others: Others, turn: nat) returns (next: nat)
      requires consumer.Starting? && params.Valid()
      modifies this
      ensures Progress(Abs(), next) == AfterStart(params, old(Abs()), others, turn)
    {
      Interfere(TheLoop, others(turn));
      NewTicker();
      next := turn + 1;
    }

    // ----- everything else that can happen in between --------------------------

    method FireTimer(deadline: nat)
      requires Enabled(params, Abs(), Pulse(Fire(deadline)))
      modifies this
      ensures Abs() == Next(params, old(Abs()), Pulse(Fire(deadline)))
    {
      ticker := Running(Fired(ticker.window, deadline));
    }

    method Perform(a: Action)
      requires Enabled(params, Abs(), a)
      modifies this
      ensures Abs() == Next(params, old(Abs()), a)
    {
      match a
      case Watch(Publish(status)) =>
        watcher, tries, drains, published := Try(status), 0, 0, published + [status];
      case Watch(TrySend) =>
        var _ := TrySending();
      case Watch(DrainOne) => DrainOldest();
      case Pulse(TakeDefault) => StartByDefault();
      case Pulse(Handle) => React();
      case Pulse(CreateTicker) => NewTicker();
      case Pulse(TakeTick) => BeatOnTick();
      case Pulse(Fire(deadline)) => FireTimer(deadline);
      case Receive => ReceiveStatus();
      case Register(host, port, reply) =>
        var _ := RegisterInstance(host, port, reply);
      case Deregister => DeregisterInstance();
      case Advance(delay) => now := now + delay;
    }

    // Whether an action is enabled does not depend on the histories.
    predicate Ready(a: Action)
      reads this
    {
      Enabled(params,
              State(Link(watcher, 0, 0, statuses, [], []), Beater(consumer, [], false, ticker, 0, []),
                    Account(host, port, instanceId, calls), now),
              a)
    }

    // Performs those of the given actions that are possible when their turn comes and are
    // not in the hands of goroutine `g`, whose place in its own code stays put.
    method Interfere(g: Goroutine, actions: seq<Action>)
      modifies this
      ensures Abs() == Meddled(g, params, old(Abs()), actions)
    {
      for i := 0 to |actions|
        invariant Abs() == Meddled(g, params, old(Abs()), actions[..i])
      {
        var a := actions[i];
        assert actions[..i + 1][..i] == actions[..i];
        assert Ready(a) <==> Enabled(params, Abs(), a);
        if !PerformedBy(g, a) && Ready(a) {
          Perform(a);
        }
      }
      assert actions[..|actions|] == actions;
    }
  }
}
