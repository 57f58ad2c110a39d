/** What the lossy channel does to the statuses, in every interleaving. */
module HeartbeatDelivery {
  import opened Wrappers
  import opened Statuses
  import opened HeartbeatProtocol

  function Pending(l: Link): seq<Status> {
    if l.watcher.Idle? then [] else [l.watcher.status]
  }

  // Every status not dropped, in the order the loop receives them.
  function Delivered(l: Link, consumed: seq<Status>): seq<Status> {
    consumed + l.mailbox + Pending(l)
  }

  // Nothing is lost but what was dropped, and the newest status never is.
  predicate Tracks(delivered: seq<Status>, published: seq<Status>, dropped: seq<Status>) {
    && Subsequence(delivered, published)
    && (delivered == [] <==> published == [])
    && (published != [] ==> Last(delivered) == Last(published))
    && multiset(published) == multiset(delivered) + multiset(dropped)
  }

  predicate Lossy(l: Link, consumed: seq<Status>) {
    |l.mailbox| <= 1 && Tracks(Delivered(l, consumed), l.published, l.dropped)
  }

  // One status costs the watcher at most two sends and one drain.
  predicate Bounded(l: Link) {
    match l.watcher
    case Idle => l.tries <= 2 && l.drains <= 1
    case Try(_) => l.tries == l.drains <= 1 && (l.tries == 1 ==> l.mailbox == [])
    case Drain(_) => l.tries == 1 && l.drains == 0
  }

  predicate BeforeLoop(b: Beater) {
    b.consumer.NotStarted? || b.consumer.FirstSelect?
  }

  // The statuses the loop has finished reacting to.
  function Handled(b: Beater): seq<Status> {
    if b.consumer.Handling? && b.consumed != [] then Init(b.consumed) else b.consumed
  }

  predicate On(b: Beater) {
    b.ticker.Running? || b.consumer.Starting?
  }

  // The ticker does what an undisturbed loop would do with the statuses handled,
  // and a new ticker is made only when there is none.
  predicate TickerFollows(b: Beater) {
    && (BeforeLoop(b) ==> !b.byDefault && b.consumed == [])
    && (b.consumer.Handling? ==> b.consumed != [] && Last(b.consumed) == b.consumer.status)
    && (b.consumer.Starting? ==> b.ticker.Frozen?)
    && On(b) == OnAfter(b.byDefault, Handled(b))
    && b.starts == Bit(b.byDefault) + Rises(b.byDefault, Handled(b))
    && b.starts == |b.closed| + Bit(On(b))
  }

  // The watcher is about to drain a channel that no one will fill again.
  predicate Blocked(l: Link) {
    l.watcher.Drain? && l.mailbox == []
  }

  // Until the loop has received something, no one empties the channel behind the watcher's back.
  predicate Safe(s: State) {
    && Lossy(s.link, s.beater.consumed)
    && Bounded(s.link)
    && (Blocked(s.link) ==> s.beater.consumed != [])
    && TickerFollows(s.beater)
  }

  lemma TracksPublish(delivered: seq<Status>, published: seq<Status>, dropped: seq<Status>, x: Status)
    requires Tracks(delivered, published, dropped)
    ensures Tracks(delivered + [x], published + [x], dropped)
  {
    assert Init(delivered + [x]) == delivered && Init(published + [x]) == published;
  }

  // The watcher drains the oldest status x while y waits to be sent.
  lemma TracksDrain(consumed: seq<Status>, x: Status, y: Status, published: seq<Status>, dropped: seq<Status>)
    requires Tracks(consumed + [x] + [y], published, dropped)
    ensures Tracks(consumed + [] + [y], published, dropped + [x])
  {
    assert consumed + [x] + [y] == consumed + [x, y] && consumed + [] + [y] == consumed + [y];
    DropBeforeLast(consumed, x, y, published);
  }

  lemma PublishKeepsLossy(l: Link, consumed: seq<Status>, x: Status)
    requires Lossy(l, consumed) && LinkEnabled(l, Publish(x))
    ensures Lossy(LinkNext(l, Publish(x)), consumed)
  {
    TracksPublish(Delivered(l, consumed), l.published, l.dropped, x);
    assert Delivered(LinkNext(l, Publish(x)), consumed) == Delivered(l, consumed) + [x];
  }

  lemma SendKeepsLossy(l: Link, consumed: seq<Status>)
    requires Lossy(l, consumed) && LinkEnabled(l, TrySend)
    ensures Lossy(LinkNext(l, TrySend), consumed)
  {
    assert Delivered(LinkNext(l, TrySend), consumed) == Delivered(l, consumed);
  }

  lemma DrainKeepsLossy(l: Link, consumed: seq<Status>)
    requires Lossy(l, consumed) && LinkEnabled(l, DrainOne)
    ensures Lossy(LinkNext(l, DrainOne), consumed)
  {
    assert l.mailbox == [l.mailbox[0]];
    TracksDrain(consumed, l.mailbox[0], l.watcher.status, l.published, l.dropped);
  }

  lemma WatcherKeepsLossy(l: Link, consumed: seq<Status>, w: WatcherStep)
    requires Lossy(l, consumed) && LinkEnabled(l, w)
    ensures Lossy(LinkNext(l, w), consumed)
  {
    match w
    case Publish(x) => PublishKeepsLossy(l, consumed, x);
    case TrySend => SendKeepsLossy(l, consumed);
    case DrainOne => DrainKeepsLossy(l, consumed);
  }

  lemma WatcherStaysBounded(l: Link, w: WatcherStep)
    requires |l.mailbox| <= 1 && Bounded(l) && LinkEnabled(l, w)
    ensures Bounded(LinkNext(l, w))
    ensures Blocked(LinkNext(l, w)) ==> Blocked(l)
  {
  }

  lemma PulseKeepsTicker(p: Params, b: Beater, now: nat, step: LoopStep)
    requires TickerFollows(b) && BeaterEnabled(p, b, now, step)
    ensures TickerFollows(BeaterNext(p, b, now, step))
    ensures BeaterNext(p, b, now, step).consumed == b.consumed
  {
  }

  lemma ReceiveKeepsTicker(b: Beater, status: Status)
    requires TickerFollows(b) && AtSelect(b)
    ensures TickerFollows(Received(b, status))
  {
    assert Init(b.consumed + [status]) == b.consumed;
  }

  lemma ReceiveKeepsLossy(l: Link, consumed: seq<Status>)
    requires Lossy(l, consumed) && l.mailbox != []
    ensures Lossy(l.(mailbox := l.mailbox[1..]), consumed + [l.mailbox[0]])
    ensures Bounded(l) ==> Bounded(l.(mailbox := l.mailbox[1..]))
  {
    assert Delivered(l.(mailbox := l.mailbox[1..]), consumed + [l.mailbox[0]]) == Delivered(l, consumed);
  }

  lemma SafeStep(p: Params, s: State, a: Action)
    requires Safe(s) && Enabled(p, s, a)
    ensures Safe(Next(p, s, a))
  {
    match a
    case Watch(w) =>
      WatcherKeepsLossy(s.link, s.beater.consumed, w);
      WatcherStaysBounded(s.link, w);
    case Pulse(step) => PulseKeepsTicker(p, s.beater, s.now, step);
    case Receive =>
      ReceiveKeepsLossy(s.link, s.beater.consumed);
      ReceiveKeepsTicker(s.beater, s.link.mailbox[0]);
    case Register(_, _, _) =>
    case Deregister =>
    case Advance(_) =>
  }

  lemma {:induction false} SafeRun(p: Params, s: State, schedule: seq<Action>)
    requires Safe(s) && Legal(p, s, schedule)
    ensures Safe(Exec(p, s, schedule))
    decreases |schedule|
  {
    if schedule != [] {
      SafeStep(p, s, schedule[0]);
      SafeRun(p, Next(p, s, schedule[0]), schedule[1..]);
    }
  }

  // ----- the lossy channel against a lossless one ---------------------------

  // Everything published has been received and reacted to.
  predicate Settled(s: State) {
    s.beater.consumer.Loop? && s.link.watcher.Idle? && s.link.mailbox == []
  }

  // The loop sees a subsequence of what was published, ending in the newest status;
  // whatever is missing was dropped. Once everything in flight has arrived, the ticker
  // is where a loop receiving every status would have left it.
  lemma LossyAgreesWithLossless(p: Params, schedule: seq<Action>)
    requires Legal(p, Boot(p), schedule)
    ensures var s := Exec(p, Boot(p), schedule);
            && |s.link.mailbox| <= 1
            && Tracks(Delivered(s.link, s.beater.consumed), s.link.published, s.link.dropped)
            && (Settled(s) ==> s.beater.ticker.Running? == OnAfter(s.beater.byDefault, s.link.published))
  {
    SafeRun(p, Boot(p), schedule);
    var s := Exec(p, Boot(p), schedule);
    if Settled(s) {
      SettledAgrees(s);
    }
  }

  lemma SettledAgrees(s: State)
    requires Safe(s) && Settled(s)
    ensures s.beater.ticker.Running? == OnAfter(s.beater.byDefault, s.link.published)
  {
    assert Delivered(s.link, s.beater.consumed) == s.beater.consumed;
    OnAfterIsLast(s.beater.byDefault, s.beater.consumed);
    OnAfterIsLast(s.beater.byDefault, s.link.published);
  }

  lemma {:induction false} PrefixIsSubsequence(a: seq<Status>, n: nat, b: seq<Status>)
    requires n <= |a| && Subsequence(a, b)
    ensures Subsequence(a[..n], b)
    decreases |a|
  {
    if n < |a| {
      SubsequenceInit(a, b);
      assert Init(a)[..n] == a[..n];
      PrefixIsSubsequence(Init(a), n, b);
    } else {
      assert a[..n] == a;
    }
  }

  lemma HandledIsSubsequence(l: Link, b: Beater)
    requires Lossy(l, b.consumed)
    ensures Subsequence(Handled(b), l.published)
  {
    var all := Delivered(l, b.consumed);
    assert Handled(b) == all[..|Handled(b)|];
    PrefixIsSubsequence(all, |Handled(b)|, l.published);
  }

  // Each start and each stop handled is an edge of what was published.
  predicate WithinEdges(b: Beater, published: seq<Status>) {
    && b.starts <= Bit(b.byDefault) + Rises(b.byDefault, published)
    && b.starts <= Bit(b.byDefault) + Rises(false, published)
    && |b.closed| <= Falls(b.byDefault, published)
  }

  lemma SafeWithinEdges(s: State)
    requires Safe(s)
    ensures WithinEdges(s.beater, s.link.published)
  {
    HandledIsSubsequence(s.link, s.beater);
    DroppingAddsNoEdges(s.beater.byDefault, Handled(s.beater), s.link.published);
    StartingOnRisesLess(s.link.published);
  }

  // Dropping statuses never adds bursts: each start sends one immediate heartbeat, and
  // there are no more starts and stops than a lossless loop would have made.
  lemma DroppingAddsNoBursts(p: Params, schedule: seq<Action>)
    requires Legal(p, Boot(p), schedule)
    ensures var s := Exec(p, Boot(p), schedule);
            WithinEdges(s.beater, s.link.published)
  {
    SafeRun(p, Boot(p), schedule);
    SafeWithinEdges(Exec(p, Boot(p), schedule));
  }

  // Serving is the last status received, or none was and the loop began by default.
  predicate Wanted(b: Beater) {
    if b.consumed == [] then b.byDefault else Last(b.consumed).Serving?
  }

  // The ticker runs exactly when heartbeats are wanted; one more ticker has been created
  // than stopped while it runs, and equally many while it is frozen.
  predicate TickerIsRight(b: Beater) {
    && (b.consumer.Loop? ==> (b.ticker.Running? <==> Wanted(b)))
    && (b.consumer.Loop? ==> b.starts - |b.closed| == Bit(b.ticker.Running?))
    && (b.consumer.Starting? ==> b.ticker.Frozen? && Wanted(b))
    && (BeforeLoop(b) ==> b.ticker.Frozen? && b.starts == |b.closed| == 0)
  }

  lemma FollowingIsRight(b: Beater)
    requires TickerFollows(b)
    ensures TickerIsRight(b)
  {
    OnAfterIsLast(b.byDefault, b.consumed);
  }

  lemma TickerSafety(p: Params, schedule: seq<Action>)
    requires Legal(p, Boot(p), schedule)
    ensures TickerIsRight(Exec(p, Boot(p), schedule).beater)
  {
    SafeRun(p, Boot(p), schedule);
    FollowingIsRight(Exec(p, Boot(p), schedule).beater);
  }

  // ----- the watcher's effort ------------------------------------------------

  // Channel operations the watcher still needs if the loop leaves it alone.
  function Rank(l: Link): nat {
    match l.watcher
    case Idle => 0
    case Try(_) => if l.mailbox == [] then 1 else 3
    case Drain(_) => 2
  }

  function Sends(schedule: seq<Action>): nat {
    if schedule == [] then 0
    else Bit(schedule[0].Watch? && schedule[0].sending.Publish?) + Sends(schedule[1..])
  }

  function ChannelOperations(schedule: seq<Action>): nat {
    if schedule == [] then 0
    else Bit(schedule[0].Watch? && !schedule[0].sending.Publish?) + ChannelOperations(schedule[1..])
  }

  // No one can make the watcher's remaining work grow, and each operation shrinks it.
  lemma RankStep(p: Params, s: State, a: Action)
    requires Safe(s) && Enabled(p, s, a)
    ensures var after := Rank(Next(p, s, a).link);
            if a.Watch? && a.sending.Publish? then after <= 3
            else if a.Watch? then after < Rank(s.link)
            else after <= Rank(s.link)
  {
  }

  // At most two sends and one drain a status, under every schedule.
  lemma {:induction false} WatcherEffort(p: Params, s: State, schedule: seq<Action>)
    requires Safe(s) && Legal(p, s, schedule)
    ensures ChannelOperations(schedule) + Rank(Exec(p, s, schedule).link) <= Rank(s.link) + 3 * Sends(schedule)
    ensures var l := Exec(p, s, schedule).link;
            l.tries <= 2 && l.drains <= 1
    decreases |schedule|
  {
    if schedule != [] {
      RankStep(p, s, schedule[0]);
      SafeStep(p, s, schedule[0]);
      WatcherEffort(p, Next(p, s, schedule[0]), schedule[1..]);
    }
  }

  // ----- when the watcher blocks ---------------------------------------------

  // Somewhere in the schedule the loop receives between the watcher's failed send
  // and its drain.
  predicate Robbed(p: Params, s: State, schedule: seq<Action>)
    requires Legal(p, s, schedule)
    decreases |schedule|
  {
    schedule != [] &&
    ((schedule[0].Receive? && s.link.watcher.Drain?) || Robbed(p, Next(p, s, schedule[0]), schedule[1..]))
  }

  lemma BlockStep(p: Params, s: State, a: Action)
    requires Safe(s) && Enabled(p, s, a)
    ensures Blocked(Next(p, s, a).link) <==> Blocked(s.link) || (a.Receive? && s.link.watcher.Drain?)
    ensures Blocked(s.link) ==> Next(p, s, a).link == s.link
    ensures Blocked(s.link) ==> Next(p, s, a).beater.consumed == s.beater.consumed
  {
    match a
    case Watch(w) => WatcherStaysBounded(s.link, w);
    case Pulse(step) => PulseKeepsTicker(p, s.beater, s.now, step);
    case Receive =>
    case Register(_, _, _) =>
    case Deregister =>
    case Advance(_) =>
  }

  lemma {:induction false} BlockRun(p: Params, s: State, schedule: seq<Action>)
    requires Safe(s) && Legal(p, s, schedule)
    ensures Blocked(Exec(p, s, schedule).link) <==> Blocked(s.link) || Robbed(p, s, schedule)
    ensures Blocked(s.link) ==> Exec(p, s, schedule).link == s.link
    ensures Blocked(s.link) ==> Exec(p, s, schedule).beater.consumed == s.beater.consumed
    decreases |schedule|
  {
    if schedule != [] {
      BlockStep(p, s, schedule[0]);
      SafeStep(p, s, schedule[0]);
      BlockRun(p, Next(p, s, schedule[0]), schedule[1..]);
    }
  }

  // The watcher ends up blocked exactly when the loop robs it of the status it meant to
  // drain; it cannot before the loop starts; and otherwise it can always go on.
  lemma BlockedIffRobbed(p: Params, schedule: seq<Action>)
    requires Legal(p, Boot(p), schedule)
    ensures var s := Exec(p, Boot(p), schedule);
            && (Blocked(s.link) <==> Robbed(p, Boot(p), schedule))
            && (Blocked(s.link) ==> !BeforeLoop(s.beater))
            && (!s.link.watcher.Idle? ==> (Blocked(s.link) <==> Stuck(s.link)))
  {
    SafeRun(p, Boot(p), schedule);
    BlockRun(p, Boot(p), schedule);
    BlockedMeansStuck(Exec(p, Boot(p), schedule));
  }

  lemma BlockedMeansStuck(s: State)
    requires Safe(s)
    ensures Blocked(s.link) ==> !BeforeLoop(s.beater)
    ensures !s.link.watcher.Idle? ==> (Blocked(s.link) <==> Stuck(s.link))
  {
  }

  // No operation of the watcher is possible.
  predicate Stuck(l: Link) {
    !LinkEnabled(l, TrySend) && !LinkEnabled(l, DrainOne)
  }

  lemma BlockedStays(p: Params, s: State, after: seq<Action>)
    requires Safe(s) && Blocked(s.link) && Legal(p, s, after)
    ensures var t := Exec(p, s, after);
            && t.link == s.link
            && t.beater.consumed == s.beater.consumed != []
            && (t.beater.consumer.Loop? ==> t.beater.ticker.Running? == Last(s.beater.consumed).Serving?)
  {
    SafeRun(p, s, after);
    BlockRun(p, s, after);
    OnAfterIsLast(Exec(p, s, after).beater.byDefault, s.beater.consumed);
  }

  // A blocked watcher stays blocked: the status it holds is never received, none is
  // published after it, and the ticker keeps following the last one received.
  lemma BlockedForever(p: Params, before: seq<Action>, after: seq<Action>)
    requires Legal(p, Boot(p), before) && Legal(p, Exec(p, Boot(p), before), after)
    requires Blocked(Exec(p, Boot(p), before).link)
    ensures var s := Exec(p, Boot(p), before);
            var t := Exec(p, s, after);
            && t.link == s.link
            && t.beater.consumed == s.beater.consumed != []
            && (t.beater.consumer.Loop? ==> t.beater.ticker.Running? == Last(s.beater.consumed).Serving?)
  {
    SafeRun(p, Boot(p), before);
    BlockedStays(p, Exec(p, Boot(p), before), after);
  }

  lemma ThreeSteps(p: Params, s: State, a: Action, b: Action, c: Action)
    requires Enabled(p, s, a) && Enabled(p, Next(p, s, a), b)
    requires Enabled(p, Next(p, Next(p, s, a), b), c)
    ensures Legal(p, s, [a, b, c]) && Exec(p, s, [a, b, c]) == Next(p, Next(p, Next(p, s, a), b), c)
  {
    assert [a, b, c][1..] == [b, c] && [b, c][1..] == [c] && [c][1..] == [];
    var end := Next(p, Next(p, Next(p, s, a), b), c);
    assert Legal(p, end, []) && Exec(p, end, []) == end;
    assert Legal(p, Next(p, Next(p, s, a), b), [c]) && Exec(p, Next(p, Next(p, s, a), b), [c]) == end;
    assert Legal(p, Next(p, s, a), [b, c]) && Exec(p, Next(p, s, a), [b, c]) == end;
  }

  // Whenever a status waits in the channel and the loop is about to receive it,
  // publishing another one can block the watcher on it.
  lemma FullChannelCanBlock(p: Params, s: State, status: Status)
    requires s.link.watcher.Idle? && |s.link.mailbox| == 1 && AtSelect(s.beater)
    ensures var robbery := [Watch(Publish(status)), Watch(TrySend), Receive];
            && Legal(p, s, robbery)
            && var t := Exec(p, s, robbery);
               && Blocked(t.link)
               && t.link.published == s.link.published + [status]
               && t.beater == Received(s.beater, s.link.mailbox[0])
               && t.now == s.now
  {
    ThreeSteps(p, s, Watch(Publish(status)), Watch(TrySend), Receive);
  }

  // So a service can stop serving and its heartbeats go on: the loop takes Serving just
  // as the watcher, having found the channel full, is about to make room for Down.
  lemma OutageCanGoUnnoticed(p: Params, down: Status) returns (schedule: seq<Action>)
    requires p.Valid() && down.Down?
    ensures Legal(p, Boot(p), schedule)
    ensures var s := Exec(p, Boot(p), schedule);
            && Blocked(s.link)
            && s.link.published == [Serving, down]
            && s.beater.consumer.Loop? && s.beater.ticker.Running?
  {
    var before := [Register("host", 80, Some("id")), Watch(Publish(Serving)), Watch(TrySend)];
    var robbery := [Watch(Publish(down)), Watch(TrySend), Receive];
    var after := [Pulse(Handle), Pulse(CreateTicker), Advance(0)];
    ThreeSteps(p, Boot(p), Register("host", 80, Some("id")), Watch(Publish(Serving)), Watch(TrySend));
    var full := Exec(p, Boot(p), before);
    FullChannelCanBlock(p, full, down);
    var robbed := Exec(p, full, robbery);
    ThreeSteps(p, robbed, Pulse(Handle), Pulse(CreateTicker), Advance(0));
    ExecAppend(p, Boot(p), before, robbery);
    ExecAppend(p, Boot(p), before + robbery, after);
    schedule := before + robbery + after;
  }

  // ----- when one more status can block the watcher -------------------------------

  // The schedule publishes one status and leaves the watcher blocked.
  predicate BlocksBy(p: Params, s: State, schedule: seq<Action>) {
    Legal(p, s, schedule) && Sends(schedule) == 1 && Blocked(Exec(p, s, schedule).link)
  }

  // So few statuses to come that the channel cannot be found full.
  predicate RoomFor(l: Link, sends: nat) {
    if sends == 0 then l.watcher.Idle? || (l.watcher.Try? && l.mailbox == [])
    else sends == 1 && l.watcher.Idle? && l.mailbox == []
  }

  lemma {:induction false} RoomKeepsFree(p: Params, s: State, schedule: seq<Action>)
    requires Legal(p, s, schedule) && RoomFor(s.link, Sends(schedule))
    ensures !Blocked(Exec(p, s, schedule).link)
    decreases |schedule|
  {
    if schedule != [] {
      RoomKeepsFree(p, Next(p, s, schedule[0]), schedule[1..]);
    }
  }

  function Stage(c: Consumer): nat {
    match c
    case NotStarted => 4
    case FirstSelect => 3
    case Handling(_) => 2
    case Starting => 1
    case Loop => 0
  }

  // The loop gets back to its select without receiving anything.
  lemma {:induction false} BackToSelect(p: Params, s: State) returns (schedule: seq<Action>)
    requires p.Valid()
    ensures Legal(p, s, schedule) && Sends(schedule) == 0
    ensures Exec(p, s, schedule).link == s.link && AtSelect(Exec(p, s, schedule).beater)
    decreases Stage(s.beater.consumer)
  {
    schedule := [];
    if !AtSelect(s.beater) {
      var a := if s.beater.consumer.NotStarted? then Register("host", 80, Some("id"))
               else if s.beater.consumer.Handling? then Pulse(Handle) else Pulse(CreateTicker);
      var rest := BackToSelect(p, Next(p, s, a));
      schedule := [a] + rest;
      assert schedule[1..] == rest;
    }
  }

  lemma {:induction false} SendsAppend(a: seq<Action>, b: seq<Action>)
    ensures Sends(a + b) == Sends(a) + Sends(b)
    decreases |a|
  {
    if a == [] {
      assert a + b == b;
    } else {
      assert (a + b)[1..] == a[1..] + b;
      SendsAppend(a[1..], b);
    }
  }

  lemma RobberySendsOne(status: Status)
    ensures Sends([Watch(Publish(status)), Watch(TrySend), Receive]) == 1
  {
    var robbery := [Watch(Publish(status)), Watch(TrySend), Receive];
    assert robbery[1..] == [Watch(TrySend), Receive] && robbery[1..][1..] == [Receive];
    assert Sends(robbery[1..][1..]) == 0 && Sends(robbery[1..]) == 0;
  }

  lemma FullChannelBlocks(p: Params, s: State) returns (schedule: seq<Action>)
    requires p.Valid() && s.link.watcher.Idle? && |s.link.mailbox| == 1
    ensures BlocksBy(p, s, schedule)
  {
    var robbery := [Watch(Publish(Serving)), Watch(TrySend), Receive];
    var quiet := BackToSelect(p, s);
    FullChannelCanBlock(p, Exec(p, s, quiet), Serving);
    ExecAppend(p, s, quiet, robbery);
    SendsAppend(quiet, robbery);
    RobberySendsOne(Serving);
    schedule := quiet + robbery;
  }

  // Before publishing, the channel tells: one more status can leave the watcher blocked
  // exactly when an earlier one still waits in it.
  lemma OneMoreCanBlock(p: Params, s: State)
    requires p.Valid() && Safe(s) && s.link.watcher.Idle?
    ensures (exists schedule :: BlocksBy(p, s, schedule)) <==> s.link.mailbox != []
  {
    if s.link.mailbox != [] {
      var schedule := FullChannelBlocks(p, s);
    } else {
      forall schedule | BlocksBy(p, s, schedule)
        ensures false
      {
        RoomKeepsFree(p, s, schedule);
      }
    }
  }

  // ----- catching up -----------------------------------------------------------

  // The schedule settles the state without publishing anything more.
  predicate SettlesBy(p: Params, s: State, schedule: seq<Action>) {
    Legal(p, s, schedule) && Sends(schedule) == 0 && Settled(Exec(p, s, schedule))
  }

  function Unsettled(s: State): nat {
    6 * Rank(s.link) + 4 * |s.link.mailbox| + Stage(s.beater.consumer)
  }

  // The loop finishes what it is doing; the watcher drains before the loop receives.
  function NextToSettle(s: State): Action {
    if s.beater.consumer.Handling? then Pulse(Handle)
    else if s.beater.consumer.Starting? then Pulse(CreateTicker)
    else if s.link.watcher.Drain? then Watch(DrainOne)
    else if s.link.mailbox != [] then Receive
    else if s.link.watcher.Try? then Watch(TrySend)
    else Pulse(TakeDefault)
  }

  lemma StepToSettle(p: Params, s: State)
    requires p.Valid() && |s.link.mailbox| <= 1
    requires !Blocked(s.link) && !s.beater.consumer.NotStarted? && !Settled(s)
    ensures var a := NextToSettle(s);
            && Enabled(p, s, a)
            && !(a.Watch? && a.sending.Publish?)
            && !Blocked(Next(p, s, a).link)
            && !Next(p, s, a).beater.consumer.NotStarted?
            && Unsettled(Next(p, s, a)) < Unsettled(s)
  {
  }

  lemma {:induction false} Settle(p: Params, s: State) returns (schedule: seq<Action>)
    requires p.Valid() && Safe(s) && !Blocked(s.link) && !s.beater.consumer.NotStarted?
    ensures SettlesBy(p, s, schedule)
    ensures |schedule| <= Unsettled(s)
    decreases Unsettled(s)
  {
    schedule := [];
    if !Settled(s) {
      var a := NextToSettle(s);
      StepToSettle(p, s);
      SafeStep(p, s, a);
      var rest := Settle(p, Next(p, s, a));
      schedule := [a] + rest;
      assert schedule[1..] == rest;
    }
  }

  lemma CanSettle(p: Params, s: State)
    requires p.Valid() && Safe(s) && !s.beater.consumer.NotStarted?
    ensures (exists rest :: SettlesBy(p, s, rest)) <==> !Blocked(s.link)
  {
    if Blocked(s.link) {
      forall rest | Legal(p, s, rest)
        ensures !Settled(Exec(p, s, rest))
      {
        BlockRun(p, s, rest);
      }
    } else {
      var rest := Settle(p, s);
    }
  }

  // Once the loop has begun, every reachable state can still catch up with what was
  // published, unless the watcher is blocked; then none can.
  lemma SettlesUnlessBlocked(p: Params, schedule: seq<Action>)
    requires p.Valid() && Legal(p, Boot(p), schedule)
    requires !Exec(p, Boot(p), schedule).beater.consumer.NotStarted?
    ensures var s := Exec(p, Boot(p), schedule);
            (exists rest :: SettlesBy(p, s, rest)) <==> !Blocked(s.link)
  {
    SafeRun(p, Boot(p), schedule);
    CanSettle(p, Exec(p, Boot(p), schedule));
  }
}
