/** What the heartbeat loop makes of its selects, whatever everyone else does in between:
    the meaning of the loop of the source as a function, and what it promises. */
module HeartbeatLoop {
  import opened Wrappers
  import opened Statuses
  import opened HeartbeatProtocol
  import opened HeartbeatDelivery
  import opened HeartbeatRate

  datatype Goroutine = TheWatcher | TheLoop

  // Whose code performs an action; timers, the clock and the server's owner have none.
  predicate PerformedBy(g: Goroutine, a: Action) {
    match a
    case Watch(_) => g.TheWatcher?
    case Pulse(step) => g.TheLoop? && !step.Fire?
    case Receive => g.TheLoop?
    case Register(_, _, _) => false
    case Deregister => false
    case Advance(_) => false
  }

  // What the others cannot do to a goroutine: only the loop empties the channel under the
  // watcher, only the watcher fills it under the loop, and neither moves the other.
  predicate Unmoved(g: Goroutine, s: State, t: State) {
    match g
    case TheWatcher =>
      && t.link == s.link.(mailbox := t.link.mailbox)
      && |t.link.mailbox| <= |s.link.mailbox|
    case TheLoop =>
      && (!s.beater.consumer.NotStarted? ==> t.beater == s.beater.(ticker := t.beater.ticker))
      && t.beater.ticker.Running? == s.beater.ticker.Running?
      && (s.beater.ticker.Running? ==> t.beater.ticker.window.taken == s.beater.ticker.window.taken)
  }

  lemma UnmovedStep(g: Goroutine, p: Params, s: State, a: Action)
    requires Enabled(p, s, a) && !PerformedBy(g, a)
    ensures Unmoved(g, s, Next(p, s, a))
  {
  }

  // The state after those of the given actions that are possible when their turn comes and
  // are not in the hands of goroutine `g`.
  function Meddled(g: Goroutine, p: Params, s: State, actions: seq<Action>): (t: State)
    ensures Unmoved(g, s, t)
    decreases |actions|
  {
    if actions == [] then s
    else
      var t := Meddled(g, p, s, actions[..|actions| - 1]);
      var a := actions[|actions| - 1];
      if PerformedBy(g, a) || !Enabled(p, t, a) then t
      else
        UnmovedStep(g, p, t, a);
        Next(p, t, a)
  }

  // What everyone but the loop does, turn by turn.
  type Others = nat -> seq<Action>

  // A state of the loop, and the turn that comes next.
  datatype Progress = Progress(s: State, turn: nat)

  function AfterStart(p: Params, s: State, others: Others, turn: nat): (r: Progress)
    requires p.Valid() && s.beater.consumer.Starting?
    ensures r.s.beater.consumer.Loop?
  {
    Progress(Next(p, Meddled(TheLoop, p, s, others(turn)), Pulse(CreateTicker)), turn + 1)
  }

  function AfterReceive(p: Params, s: State, others: Others, turn: nat): (r: Progress)
    requires p.Valid() && AtSelect(s.beater) && s.link.mailbox != []
    ensures r.s.beater.consumer.Loop?
  {
    var handled := Next(p, Meddled(TheLoop, p, Next(p, s, Receive), others(turn)), Pulse(Handle));
    if handled.beater.consumer.Starting? then AfterStart(p, handled, others, turn + 1) else Progress(handled, turn + 1)
  }

  // The first select, which does not wait.
  function AfterFirstSelect(p: Params, s: State, others: Others): (r: Progress)
    requires p.Valid() && s.beater.consumer.FirstSelect?
    ensures r.s.beater.consumer.Loop?
  {
    var ready := Meddled(TheLoop, p, s, others(0));
    if ready.link.mailbox != [] then AfterReceive(p, ready, others, 1)
    else AfterStart(p, Next(p, ready, Pulse(TakeDefault)), others, 1)
  }

  predicate TickReady(s: State) {
    s.beater.ticker.Running? && s.beater.ticker.window.buffered
  }

  predicate StatusReady(s: State) {
    s.link.mailbox != []
  }

  // One further select, once the others have acted.
  function Served(p: Params, ready: State, others: Others, turn: nat, preferTick: bool): (r: Progress)
    requires p.Valid() && ready.beater.consumer.Loop?
    ensures r.s.beater.consumer.Loop?
  {
    if TickReady(ready) && (preferTick || !StatusReady(ready))
    then Progress(Next(p, ready, Pulse(TakeTick)), turn)
    else if StatusReady(ready) then AfterReceive(p, ready, others, turn)
    else Progress(ready, turn)
  }

  function AfterSelect(p: Params, from: Progress, others: Others, preferTick: bool): (r: Progress)
    requires p.Valid() && from.s.beater.consumer.Loop?
    ensures r.s.beater.consumer.Loop?
  {
    Served(p, Meddled(TheLoop, p, from.s, others(from.turn)), others, from.turn + 1, preferTick)
  }

  function AfterSelects(p: Params, from: Progress, others: Others, preferTick: seq<bool>): (r: Progress)
    requires p.Valid() && from.s.beater.consumer.Loop?
    ensures r.s.beater.consumer.Loop?
    decreases |preferTick|
  {
    if preferTick == [] then from
    else
      var n := |preferTick| - 1;
      AfterSelect(p, AfterSelects(p, from, others, preferTick[..n]), others, preferTick[n])
  }

  lemma OneMoreSelect(p: Params, from: Progress, others: Others, preferTick: seq<bool>, i: nat)
    requires p.Valid() && from.s.beater.consumer.Loop? && i < |preferTick|
    ensures AfterSelects(p, from, others, preferTick[..i + 1])
            == AfterSelect(p, AfterSelects(p, from, others, preferTick[..i]), others, preferTick[i])
  {
    assert preferTick[..i + 1][..i] == preferTick[..i];
  }

  // ----- all of it is a schedule --------------------------------------------------------

  // `trace` leads from the state `before`, itself safe, to `s`.
  ghost predicate Leads(p: Params, before: State, trace: seq<Action>, s: State) {
    Safe(before) && Legal(p, before, trace) && s == Exec(p, before, trace)
  }

  lemma LeadsOn(p: Params, before: State, past: seq<Action>, s: State, a: Action)
    requires Leads(p, before, past, s) && Enabled(p, s, a)
    ensures Leads(p, before, past + [a], Next(p, s, a))
  {
    assert [a][1..] == [];
    assert Exec(p, Next(p, s, a), []) == Next(p, s, a);
    assert Legal(p, s, [a]) && Exec(p, s, [a]) == Next(p, s, a);
    ExecAppend(p, before, past, [a]);
  }

  lemma {:induction false} LeadsMeddled(g: Goroutine, p: Params, before: State, past: seq<Action>, s: State,
                                        actions: seq<Action>) returns (trace: seq<Action>)
    requires Leads(p, before, past, s)
    ensures Leads(p, before, trace, Meddled(g, p, s, actions))
    decreases |actions|
  {
    trace := past;
    if actions != [] {
      var n := |actions| - 1;
      trace := LeadsMeddled(g, p, before, past, s, actions[..n]);
      var t := Meddled(g, p, s, actions[..n]);
      if !PerformedBy(g, actions[n]) && Enabled(p, t, actions[n]) {
        LeadsOn(p, before, trace, t, actions[n]);
        trace := trace + [actions[n]];
      }
    }
  }

  lemma LeadsStart(p: Params, before: State, past: seq<Action>, s: State, others: Others, turn: nat)
    returns (trace: seq<Action>)
    requires p.Valid() && s.beater.consumer.Starting? && Leads(p, before, past, s)
    ensures Leads(p, before, trace, AfterStart(p, s, others, turn).s)
  {
    trace := LeadsMeddled(TheLoop, p, before, past, s, others(turn));
    LeadsOn(p, before, trace, Meddled(TheLoop, p, s, others(turn)), Pulse(CreateTicker));
    trace := trace + [Pulse(CreateTicker)];
  }

  lemma LeadsReceive(p: Params, before: State, past: seq<Action>, s: State, others: Others, turn: nat)
    returns (trace: seq<Action>)
    requires p.Valid() && AtSelect(s.beater) && s.link.mailbox != [] && Leads(p, before, past, s)
    ensures Leads(p, before, trace, AfterReceive(p, s, others, turn).s)
  {
    LeadsOn(p, before, past, s, Receive);
    var received := Next(p, s, Receive);
    trace := LeadsMeddled(TheLoop, p, before, past + [Receive], received, others(turn));
    var handling := Meddled(TheLoop, p, received, others(turn));
    LeadsOn(p, before, trace, handling, Pulse(Handle));
    trace := trace + [Pulse(Handle)];
    var handled := Next(p, handling, Pulse(Handle));
    if handled.beater.consumer.Starting? {
      trace := LeadsStart(p, before, trace, handled, others, turn + 1);
    }
  }

  lemma LeadsFirst(p: Params, s: State, others: Others) returns (trace: seq<Action>)
    requires p.Valid() && s.beater.consumer.FirstSelect? && Safe(s)
    ensures Leads(p, s, trace, AfterFirstSelect(p, s, others).s)
  {
    trace := LeadsMeddled(TheLoop, p, s, [], s, others(0));
    var ready := Meddled(TheLoop, p, s, others(0));
    if ready.link.mailbox != [] {
      trace := LeadsReceive(p, s, trace, ready, others, 1);
    } else {
      LeadsOn(p, s, trace, ready, Pulse(TakeDefault));
      trace := LeadsStart(p, s, trace + [Pulse(TakeDefault)], Next(p, ready, Pulse(TakeDefault)), others, 1);
    }
  }

  lemma LeadsServed(p: Params, before: State, past: seq<Action>, ready: State, others: Others, turn: nat,
                    preferTick: bool) returns (trace: seq<Action>)
    requires p.Valid() && ready.beater.consumer.Loop? && Leads(p, before, past, ready)
    ensures Leads(p, before, trace, Served(p, ready, others, turn, preferTick).s)
  {
    trace := past;
    if TickReady(ready) && (preferTick || !StatusReady(ready)) {
      LeadsOn(p, before, past, ready, Pulse(TakeTick));
      trace := past + [Pulse(TakeTick)];
    } else if StatusReady(ready) {
      trace := LeadsReceive(p, before, past, ready, others, turn);
    }
  }

  lemma LeadsSelect(p: Params, before: State, past: seq<Action>, from: Progress, others: Others, preferTick: bool)
    returns (trace: seq<Action>)
    requires p.Valid() && from.s.beater.consumer.Loop? && Leads(p, before, past, from.s)
    ensures Leads(p, before, trace, AfterSelect(p, from, others, preferTick).s)
  {
    trace := LeadsMeddled(TheLoop, p, before, past, from.s, others(from.turn));
    trace := LeadsServed(p, before, trace, Meddled(TheLoop, p, from.s, others(from.turn)), others, from.turn + 1,
                         preferTick);
  }

  lemma {:induction false} LeadsSelects(p: Params, before: State, past: seq<Action>, from: Progress, others: Others,
                                        preferTick: seq<bool>) returns (trace: seq<Action>)
    requires p.Valid() && from.s.beater.consumer.Loop? && Leads(p, before, past, from.s)
    ensures Leads(p, before, trace, AfterSelects(p, from, others, preferTick).s)
    decreases |preferTick|
  {
    trace := past;
    if preferTick != [] {
      var n := |preferTick| - 1;
      trace := LeadsSelects(p, before, past, from, others, preferTick[..n]);
      trace := LeadsSelect(p, before, trace, AfterSelects(p, from, others, preferTick[..n]), others, preferTick[n]);
    }
  }

  // Whatever the others do, the loop's run is a schedule, and ends with the ticker right.
  lemma LoopIsSchedule(p: Params, s: State, others: Others, preferTick: seq<bool>) returns (trace: seq<Action>)
    requires p.Valid() && s.beater.consumer.FirstSelect? && Safe(s)
    ensures var t := AfterSelects(p, AfterFirstSelect(p, s, others), others, preferTick).s;
            Leads(p, s, trace, t) && Safe(t) && TickerIsRight(t.beater)
  {
    trace := LeadsFirst(p, s, others);
    var begun := AfterFirstSelect(p, s, others);
    trace := LeadsSelects(p, s, trace, begun, others, preferTick);
    LeadsRight(p, s, trace, AfterSelects(p, begun, others, preferTick).s);
  }

  lemma LeadsRight(p: Params, before: State, trace: seq<Action>, s: State)
    requires Leads(p, before, trace, s)
    ensures Safe(s) && TickerIsRight(s.beater)
  {
    SafeRun(p, before, trace);
    FollowingIsRight(s.beater);
  }

  // ----- what a select promises ------------------------------------------------------

  // No select idles when something is ready. With a tick waiting and preferred, or alone,
  // it sends one heartbeat and takes that tick; else with a status waiting it receives
  // that one and no tick; and with neither nothing happens but what the others did.
  lemma SelectServes(p: Params, from: Progress, others: Others, preferTick: bool)
    requires p.Valid() && from.s.beater.consumer.Loop?
    ensures var ready := Meddled(TheLoop, p, from.s, others(from.turn));
            var t := AfterSelect(p, from, others, preferTick).s;
            if TickReady(ready) && (preferTick || !StatusReady(ready)) then
              && Ticks(t.beater) == Ticks(ready.beater) + 1
              && t.beater.consumed == ready.beater.consumed && t.link == ready.link
              && t.account.calls == ready.account.calls
                                    + [HeartbeatCall(EndpointOf(p, ready.account), ready.account.instanceId, ready.now)]
            else if StatusReady(ready) then
              && t.beater.consumed == ready.beater.consumed + [ready.link.mailbox[0]]
              && Ticks(t.beater) == Ticks(ready.beater)
            else t == ready
  {
    var ready := Meddled(TheLoop, p, from.s, others(from.turn));
    if StatusReady(ready) && !(TickReady(ready) && preferTick) {
      ReceiveTakesOne(p, ready, others, from.turn + 1);
    }
  }

  lemma HandleKeepsTicks(p: Params, s: State)
    requires s.beater.consumer.Handling?
    ensures Ticks(Next(p, s, Pulse(Handle)).beater) == Ticks(s.beater)
  {
    if Stops(s.beater) {
      AppendWindow(1, s.beater.closed, Closed(s.beater.ticker.window, s.now));
    }
  }

  lemma ReceiveTakesOne(p: Params, s: State, others: Others, turn: nat)
    requires p.Valid() && s.beater.consumer.Loop? && s.link.mailbox != []
    ensures var t := AfterReceive(p, s, others, turn).s;
            && t.beater.consumed == s.beater.consumed + [s.link.mailbox[0]]
            && Ticks(t.beater) == Ticks(s.beater)
  {
    var handling := Meddled(TheLoop, p, Next(p, s, Receive), others(turn));
    HandleKeepsTicks(p, handling);
  }

  // The first select receives a waiting status and starts the ticker only for Serving; with
  // none it does not wait but starts the ticker by default.
  lemma FirstSelectServes(p: Params, s: State, others: Others)
    requires p.Valid() && s.beater.consumer.FirstSelect? && s.beater.ticker.Frozen?
    ensures var ready := Meddled(TheLoop, p, s, others(0));
            var b := AfterFirstSelect(p, s, others).s.beater;
            if StatusReady(ready) then
              && b.consumed == s.beater.consumed + [ready.link.mailbox[0]] && b.byDefault == s.beater.byDefault
              && b.starts == s.beater.starts + Bit(ready.link.mailbox[0].Serving?)
              && b.ticker.Running? == ready.link.mailbox[0].Serving?
            else
              b.consumed == s.beater.consumed && b.byDefault && b.starts == s.beater.starts + 1 && b.ticker.Running?
  {
  }

  // How many of the selects find a tick or a status waiting.
  function ReadySelects(p: Params, from: Progress, others: Others, preferTick: seq<bool>): nat
    requires p.Valid() && from.s.beater.consumer.Loop?
    decreases |preferTick|
  {
    if preferTick == [] then 0
    else
      var n := |preferTick| - 1;
      var before := AfterSelects(p, from, others, preferTick[..n]);
      var ready := Meddled(TheLoop, p, before.s, others(before.turn));
      ReadySelects(p, from, others, preferTick[..n]) + Bit(TickReady(ready) || StatusReady(ready))
  }

  // Whatever the others do, the ticks taken and the statuses received by a series of selects
  // are together as many as the selects that found one waiting.
  lemma {:induction false} OneServiceASelect(p: Params, from: Progress, others: Others, preferTick: seq<bool>)
    requires p.Valid() && from.s.beater.consumer.Loop?
    ensures var b := AfterSelects(p, from, others, preferTick).s.beater;
            Ticks(b) + |b.consumed|
            == Ticks(from.s.beater) + |from.s.beater.consumed| + ReadySelects(p, from, others, preferTick)
    decreases |preferTick|
  {
    if preferTick != [] {
      var n := |preferTick| - 1;
      OneServiceASelect(p, from, others, preferTick[..n]);
      var before := AfterSelects(p, from, others, preferTick[..n]);
      SelectServes(p, before, others, preferTick[n]);
      assert Ticks(Meddled(TheLoop, p, before.s, others(before.turn)).beater) == Ticks(before.s.beater);
    }
  }

  // ----- a steady service ---------------------------------------------------------------

  // The others let the loop start, and then the clock reach one deadline a select.
  ghost predicate Steady(p: Params, others: Others)
    requires p.Valid()
  {
    && others(0) == [] && others(1) == []
    && forall turn: nat | turn >= 2 :: others(turn) == [Advance(p.period), Pulse(Fire(turn - 1))]
  }

  // Heartbeats at once and then one a period, n of them.
  function PunctualBeats(p: Params, a: Account, now: nat, n: nat): seq<Call>
    requires p.Valid()
  {
    if n == 0 then [HeartbeatCall(EndpointOf(p, a), a.instanceId, now)]
    else PunctualBeats(p, a, now, n - 1) + [HeartbeatCall(EndpointOf(p, a), a.instanceId, now + n * p.period)]
  }

  function SteadyState(p: Params, s: State, n: nat): State
    requires p.Valid()
  {
    s.(beater := s.beater.(consumer := Loop, byDefault := true, starts := s.beater.starts + 1,
                           ticker := Running(Window(s.now, n, 0, 0, n, false))),
       account := s.account.(calls := s.account.calls + PunctualBeats(p, s.account, s.now, n)),
       now := s.now + n * p.period)
  }

  lemma BothMeddle(g: Goroutine, p: Params, s: State, a: Action, b: Action)
    requires !PerformedBy(g, a) && Enabled(p, s, a)
    requires !PerformedBy(g, b) && Enabled(p, Next(p, s, a), b)
    ensures Meddled(g, p, s, [a, b]) == Next(p, Next(p, s, a), b)
  {
    assert [a, b][..1] == [a] && [a][..0] == [];
    assert Meddled(g, p, s, []) == s;
    assert Meddled(g, p, s, [a]) == Next(p, s, a);
  }

  lemma SteadySelect(p: Params, s: State, n: nat, others: Others, preferTick: bool)
    requires p.Valid() && Steady(p, others) && s.link.mailbox == []
    ensures AfterSelect(p, Progress(SteadyState(p, s, n), n + 2), others, preferTick)
            == Progress(SteadyState(p, s, n + 1), n + 3)
  {
    assert (n + 1) * p.period == n * p.period + p.period;
    BothMeddle(TheLoop, p, SteadyState(p, s, n), Advance(p.period), Pulse(Fire(n + 1)));
  }

  // A service that reports nothing and a timer that is on time: the provider hears one
  // heartbeat at once and then exactly one a period, for as long as the loop goes on.
  lemma {:induction false} SteadyService(p: Params, s: State, others: Others, preferTick: seq<bool>)
    requires p.Valid() && Steady(p, others)
    requires s.beater.consumer.FirstSelect? && s.link.mailbox == [] && s.beater.ticker.Frozen?
    ensures var n := |preferTick|;
            var r := AfterSelects(p, AfterFirstSelect(p, s, others), others, preferTick);
            && r.s.account.calls == s.account.calls + PunctualBeats(p, s.account, s.now, n)
            && r.s.now == s.now + n * p.period
            && r == Progress(SteadyState(p, s, n), n + 2)
    decreases |preferTick|
  {
    if preferTick == [] {
      assert s.now + 0 * p.period == s.now;
      assert AfterFirstSelect(p, s, others) == Progress(SteadyState(p, s, 0), 2);
    } else {
      var n := |preferTick| - 1;
      SteadyService(p, s, others, preferTick[..n]);
      SteadySelect(p, s, n, others, preferTick[n]);
    }
  }
}
