/** How many heartbeats a run can send. */
module HeartbeatRate {
  import opened Wrappers
  import opened Statuses
  import opened HeartbeatProtocol
  import opened HeartbeatDelivery

  function Heartbeats(calls: seq<Call>): nat {
    if calls == [] then 0
    else Heartbeats(calls[..|calls| - 1]) + Bit(calls[|calls| - 1].HeartbeatCall?)
  }

  // All tickers the loop ever had; one still running is seen as ending now.
  function Windows(b: Beater, now: nat): seq<Closed> {
    if b.ticker.Running? then b.closed + [Closed(b.ticker.window, now)] else b.closed
  }

  function Length(c: Closed): nat {
    if c.window.created <= c.end then c.end - c.window.created else 0
  }

  function Taken(ws: seq<Closed>): nat {
    if ws == [] then 0 else Taken(ws[..|ws| - 1]) + ws[|ws| - 1].window.taken
  }

  function RunningTime(ws: seq<Closed>): nat {
    if ws == [] then 0 else RunningTime(ws[..|ws| - 1]) + Length(ws[|ws| - 1])
  }

  // Whole periods, counted ticker by ticker.
  function Periods(period: int, ws: seq<Closed>): nat
    requires period > 0
  {
    if ws == [] then 0 else Periods(period, ws[..|ws| - 1]) + Length(ws[|ws| - 1]) / period
  }

  // Each deadline the timer dealt with has passed and is accounted for exactly once.
  predicate Accounted(period: int, c: Closed) {
    && c.window.created + c.window.due * period <= c.end
    && c.window.due == c.window.skipped + c.window.overflowed + c.window.taken + Bit(c.window.buffered)
  }

  // A timer that is never late, and a loop that takes every tick before the next.
  predicate Prompt(period: int, c: Closed)
    requires period > 0
  {
    && c.window.due == Length(c) / period
    && c.window.skipped == 0 && c.window.overflowed == 0 && !c.window.buffered
  }

  function Ticks(b: Beater): nat {
    Taken(b.closed) + if b.ticker.Running? then b.ticker.window.taken else 0
  }

  predicate WellTimed(period: int, b: Beater, now: nat) {
    && (forall c <- b.closed :: Accounted(period, c))
    && (b.ticker.Running? ==> Accounted(period, Closed(b.ticker.window, now)))
    && RunningTime(b.closed) <= (if b.ticker.Running? then b.ticker.window.created else now)
  }

  predicate Timed(p: Params, s: State) {
    && WellTimed(p.period, s.beater, s.now)
    && Heartbeats(s.account.calls) == s.beater.starts + Ticks(s.beater)
  }

  lemma AppendWindow(period: int, ws: seq<Closed>, c: Closed)
    requires period > 0
    ensures Taken(ws + [c]) == Taken(ws) + c.window.taken
    ensures RunningTime(ws + [c]) == RunningTime(ws) + Length(c)
    ensures Periods(period, ws + [c]) == Periods(period, ws) + Length(c) / period
  {
    assert (ws + [c])[..|ws|] == ws;
  }

  lemma AppendCall(calls: seq<Call>, c: Call)
    ensures Heartbeats(calls + [c]) == Heartbeats(calls) + Bit(c.HeartbeatCall?)
  {
    assert (calls + [c])[..|calls|] == calls;
  }

  lemma PulseKeepsTime(p: Params, b: Beater, now: nat, step: LoopStep)
    requires p.Valid() && WellTimed(p.period, b, now) && BeaterEnabled(p, b, now, step)
    requires b.consumer.Starting? ==> b.ticker.Frozen?
    ensures WellTimed(p.period, BeaterNext(p, b, now, step), now)
    ensures var t := BeaterNext(p, b, now, step);
            t.starts + Ticks(t) == b.starts + Ticks(b) + Bit(Beats(b, step))
  {
    match step
    case TakeDefault =>
    case Handle =>
      if Stops(b) {
        AppendWindow(p.period, b.closed, Closed(b.ticker.window, now));
      }
    case CreateTicker =>
    case TakeTick =>
    case Fire(_) =>
  }

  lemma TimedStep(p: Params, s: State, a: Action)
    requires p.Valid() && TickerFollows(s.beater) && Timed(p, s) && Enabled(p, s, a)
    ensures Timed(p, Next(p, s, a))
  {
    OnlyTheLoopBeats(p, s, a);
    if a.Pulse? {
      PulseKeepsTime(p, s.beater, s.now, a.step);
    }
  }

  lemma {:induction false} TimedRun(p: Params, s: State, schedule: seq<Action>)
    requires p.Valid() && Safe(s) && Timed(p, s) && Legal(p, s, schedule)
    ensures Timed(p, Exec(p, s, schedule))
    decreases |schedule|
  {
    if schedule != [] {
      SafeStep(p, s, schedule[0]);
      TimedStep(p, s, schedule[0]);
      TimedRun(p, Next(p, s, schedule[0]), schedule[1..]);
    }
  }

  lemma ClosedStep(p: Params, s: State, a: Action)
    requires Enabled(p, s, a)
    ensures s.beater.closed <= Next(p, s, a).beater.closed
  {
  }

  lemma {:induction false} ClosedGrows(p: Params, s: State, schedule: seq<Action>)
    requires Legal(p, s, schedule)
    ensures s.beater.closed <= Exec(p, s, schedule).beater.closed
    decreases |schedule|
  {
    if schedule != [] {
      ClosedStep(p, s, schedule[0]);
      ClosedGrows(p, Next(p, s, schedule[0]), schedule[1..]);
    }
  }

  lemma MulMonotone(a: nat, b: nat, c: nat)
    ensures a <= b ==> a * c <= b * c
  {
    if a <= b {
      assert b * c == a * c + (b - a) * c;
    }
  }

  lemma DeadlinesPassed(period: int, due: nat, length: nat)
    requires period > 0 && due * period <= length
    ensures due <= length / period
  {
    var whole := length / period;
    assert length == whole * period + length % period;
    assert (whole + 1) * period == whole * period + period;
    MulMonotone(whole + 1, due, period);
  }

  lemma PeriodsAdd(period: int, a: nat, b: nat)
    requires period > 0
    ensures a / period + b / period <= (a + b) / period
  {
    var x, y := a / period, b / period;
    assert (x + y) * period <= a + b;
    DeadlinesPassed(period, x + y, a + b);
  }

  lemma PeriodsMonotone(period: int, a: nat, b: nat)
    requires period > 0 && a <= b
    ensures a / period <= b / period
  {
    PeriodsAdd(period, a, b - a);
  }

  lemma TicksBounded(period: int, c: Closed)
    requires period > 0 && Accounted(period, c)
    ensures c.window.taken <= Length(c) / period
    ensures c.window.taken == Length(c) / period <==> Prompt(period, c)
  {
    assert 0 <= c.window.due * period;
    DeadlinesPassed(period, c.window.due, Length(c));
  }

  lemma {:induction false} TakenAgainstPeriods(period: int, ws: seq<Closed>)
    requires period > 0 && forall c <- ws :: Accounted(period, c)
    ensures Taken(ws) <= Periods(period, ws) <= RunningTime(ws) / period
    ensures Taken(ws) == Periods(period, ws) <==> forall c <- ws :: Prompt(period, c)
    decreases |ws|
  {
    if ws != [] {
      var rest, c := ws[..|ws| - 1], ws[|ws| - 1];
      assert forall x :: x in ws <==> x in rest || x == c;
      TakenAgainstPeriods(period, rest);
      TicksBounded(period, c);
      PeriodsAdd(period, RunningTime(rest), Length(c));
    }
  }

  lemma WindowsTimed(period: int, b: Beater, now: nat)
    requires period > 0 && WellTimed(period, b, now)
    ensures forall c <- Windows(b, now) :: Accounted(period, c)
    ensures Taken(Windows(b, now)) == Ticks(b)
    ensures RunningTime(Windows(b, now)) <= now
  {
    if b.ticker.Running? {
      AppendWindow(period, b.closed, Closed(b.ticker.window, now));
      assert 0 <= b.ticker.window.due * period;
    }
  }

  // Under every schedule, heartbeats are starts plus ticks taken, and so at most one per
  // start and one per whole period a ticker ran. They are that many exactly when no
  // ticker's timer was late and no tick was lost.
  lemma HeartbeatBudget(p: Params, schedule: seq<Action>)
    requires p.Valid() && Legal(p, Boot(p), schedule)
    ensures var s := Exec(p, Boot(p), schedule);
            var sent, ws := Heartbeats(s.account.calls), Windows(s.beater, s.now);
            && sent == s.beater.starts + Taken(ws)
            && sent <= s.beater.starts + Periods(p.period, ws) <= s.beater.starts + RunningTime(ws) / p.period
            && RunningTime(ws) <= s.now
            && (sent == s.beater.starts + Periods(p.period, ws) <==> forall c <- ws :: Prompt(p.period, c))
  {
    TimedRun(p, Boot(p), schedule);
    var s := Exec(p, Boot(p), schedule);
    WindowsTimed(p.period, s.beater, s.now);
    TakenAgainstPeriods(p.period, Windows(s.beater, s.now));
  }

  lemma OnlyTheLoopBeats(p: Params, s: State, a: Action)
    requires Enabled(p, s, a)
    ensures Heartbeats(Next(p, s, a).account.calls)
            == Heartbeats(s.account.calls) + Bit(a.Pulse? && Beats(s.beater, a.step))
  {
    match a
    case Watch(_) =>
    case Pulse(step) =>
      AppendCall(s.account.calls, HeartbeatCall(EndpointOf(p, s.account), s.account.instanceId, s.now));
    case Receive =>
    case Register(host, port, reply) =>
      AppendCall(s.account.calls, RegisterCall(EndpointOf(p, s.account.(host := host, port := port)), reply));
    case Deregister =>
      AppendCall(s.account.calls, DeregisterCall(EndpointOf(p, s.account), s.account.instanceId));
    case Advance(_) =>
  }

  lemma BeatsWhileServing(p: Params, b: Beater, now: nat, step: LoopStep)
    requires TickerFollows(b) && BeaterEnabled(p, b, now, step) && Beats(b, step)
    ensures Wanted(BeaterNext(p, b, now, step))
  {
    OnAfterIsLast(b.byDefault, b.consumed);
  }

  lemma HeartbeatsAreWanted(p: Params, s: State, a: Action)
    requires Safe(s) && Enabled(p, s, a) && Heartbeats(Next(p, s, a).account.calls) > Heartbeats(s.account.calls)
    ensures Wanted(Next(p, s, a).beater)
  {
    OnlyTheLoopBeats(p, s, a);
    BeatsWhileServing(p, s.beater, s.now, a.step);
  }

  // A step of a run sends a heartbeat only if one is wanted.
  lemma HeartbeatsOnlyWhileServing(p: Params, schedule: seq<Action>, a: Action)
    requires Legal(p, Boot(p), schedule) && Enabled(p, Exec(p, Boot(p), schedule), a)
    requires var s := Exec(p, Boot(p), schedule);
             Heartbeats(Next(p, s, a).account.calls) > Heartbeats(s.account.calls)
    ensures Wanted(Next(p, Exec(p, Boot(p), schedule), a).beater)
  {
    SafeRun(p, Boot(p), schedule);
    HeartbeatsAreWanted(p, Exec(p, Boot(p), schedule), a);
  }

  // The provider's load depends only on the clock and on how often the service came up.
  lemma HeartbeatLoad(p: Params, schedule: seq<Action>)
    requires p.Valid() && Legal(p, Boot(p), schedule)
    ensures var s := Exec(p, Boot(p), schedule);
            Heartbeats(s.account.calls)
            <= Bit(s.beater.byDefault) + Rises(s.beater.byDefault, s.link.published) + s.now / p.period
  {
    var s := Exec(p, Boot(p), schedule);
    var ws := Windows(s.beater, s.now);
    HeartbeatBudget(p, schedule);
    DroppingAddsNoBursts(p, schedule);
    PeriodsMonotone(p.period, RunningTime(ws), s.now);
  }

  lemma StoppedStaySilentFrom(p: Params, s: State, after: seq<Action>)
    requires p.Valid() && Safe(s) && Timed(p, s) && Legal(p, s, after)
    ensures var t := Exec(p, s, after);
            && s.beater.closed <= t.beater.closed
            && Heartbeats(t.account.calls)
               == t.beater.starts + Taken(s.beater.closed) + Taken(Windows(t.beater, t.now)[|s.beater.closed|..])
  {
    TimedRun(p, s, after);
    ClosedGrows(p, s, after);
    var t := Exec(p, s, after);
    TicksSince(p.period, t.beater, t.now, s.beater.closed);
  }

  // A stopped ticker is never heard of again: whatever it had buffered, its record is final,
  // and every later heartbeat is a start or a tick of another ticker.
  lemma StoppedTickersStaySilent(p: Params, before: seq<Action>, after: seq<Action>)
    requires p.Valid() && Legal(p, Boot(p), before) && Legal(p, Exec(p, Boot(p), before), after)
    ensures var s := Exec(p, Boot(p), before);
            var t := Exec(p, s, after);
            && s.beater.closed <= t.beater.closed
            && Heartbeats(t.account.calls)
               == t.beater.starts + Taken(s.beater.closed) + Taken(Windows(t.beater, t.now)[|s.beater.closed|..])
  {
    SafeRun(p, Boot(p), before);
    TimedRun(p, Boot(p), before);
    StoppedStaySilentFrom(p, Exec(p, Boot(p), before), after);
  }

  lemma TicksSince(period: int, b: Beater, now: nat, stopped: seq<Closed>)
    requires period > 0 && WellTimed(period, b, now) && stopped <= b.closed
    ensures Ticks(b) == Taken(stopped) + Taken(Windows(b, now)[|stopped|..])
  {
    WindowsTimed(period, b, now);
    TakenSplit(Windows(b, now), |stopped|);
    assert Windows(b, now)[..|stopped|] == stopped;
  }

  lemma {:induction false} TakenSplit(ws: seq<Closed>, n: nat)
    requires n <= |ws|
    ensures Taken(ws) == Taken(ws[..n]) + Taken(ws[n..])
    decreases |ws|
  {
    if n < |ws| {
      var rest := ws[..|ws| - 1];
      TakenSplit(rest, n);
      assert rest[..n] == ws[..n] && ws[n..][..|ws| - n - 1] == rest[n..];
    } else {
      assert ws[..n] == ws && ws[n..] == [];
    }
  }

  // ----- periods no ticker can have -----------------------------------------------

  predicate StillBeforeTicker(s: State) {
    && s.beater.ticker.Frozen? && s.beater.closed == []
    && Heartbeats(s.account.calls) == s.beater.starts == Bit(s.beater.consumer.Starting?)
  }

  lemma StillBeforeStep(p: Params, s: State, a: Action)
    requires !p.Valid() && StillBeforeTicker(s) && Enabled(p, s, a)
    ensures StillBeforeTicker(Next(p, s, a))
    ensures s.beater.consumer.Starting? ==> Next(p, s, a).beater == s.beater
  {
    OnlyTheLoopBeats(p, s, a);
  }

  lemma {:induction false} StillBeforeRun(p: Params, s: State, schedule: seq<Action>)
    requires !p.Valid() && StillBeforeTicker(s) && Legal(p, s, schedule)
    ensures StillBeforeTicker(Exec(p, s, schedule))
    ensures s.beater.consumer.Starting? ==> Exec(p, s, schedule).beater == s.beater
    decreases |schedule|
  {
    if schedule != [] {
      StillBeforeStep(p, s, schedule[0]);
      StillBeforeRun(p, Next(p, s, schedule[0]), schedule[1..]);
    }
  }

  // With a period that is not positive the loop gets as far as its first heartbeat, where
  // NewTicker panics: no run has a ticker or a second heartbeat, or goes on from there.
  lemma PanicsAtFirstStart(p: Params, schedule: seq<Action>, more: seq<Action>)
    requires !p.Valid() && Legal(p, Boot(p), schedule) && Legal(p, Exec(p, Boot(p), schedule), more)
    ensures var s := Exec(p, Boot(p), schedule);
            && s.beater.ticker.Frozen? && s.beater.closed == []
            && Heartbeats(s.account.calls) == s.beater.starts == Bit(s.beater.consumer.Starting?)
            && (s.beater.consumer.Starting? ==> Exec(p, s, more).beater == s.beater)
  {
    StillBeforeRun(p, Boot(p), schedule);
    StillBeforeRun(p, Exec(p, Boot(p), schedule), more);
  }
}
