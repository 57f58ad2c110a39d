/** The circuit breaker: the stack of user judges over the default policy, and the two
    reporters. */
module CircuitBreaker {
  import opened Wrappers
  import opened Nodes
  import opened Plugins

  // The framework's error codes that matter here, and errors of other kinds.
  datatype Code = ClientTimeout | ClientConnectFail | ClientNetErr | OtherCode(code: int)

  datatype Failure = TrpcError(code: Code, framework: bool) | ForeignError(id: int)

  // Should is an integer in the source, so a judge may return a value it does not name.
  datatype Should = Unknown | True | False | Ignore | Unnamed(value: int)

  type Judge = Failure -> Should

  // Durations are in nanoseconds.
  type Verdict = (Failure, int) -> Should

  type Policy = int -> Verdict

  const DELTA_TIMEOUT := 1_000_000
  const ERR_RET_CODE := 10000

  // ----- the policy and the judges above it -------------------------------------

  predicate BreaksByDefault(minTimeout: int, err: Failure, cost: int) {
    && err.TrpcError? && err.framework
    && (err.code.ClientConnectFail? || err.code.ClientNetErr? || (err.code.ClientTimeout? && cost >= minTimeout))
  }

  function Base(): Policy {
    minTimeout => (err, cost) => if BreaksByDefault(minTimeout, err, cost) then True else False
  }

  function Above(judge: Judge, inner: Policy): Policy {
    minTimeout =>
      var shouldCircuitBreak := inner(minTimeout);
      (err, cost) =>
        var should := judge(err);
        if should == Unknown then shouldCircuitBreak(err, cost) else should
  }

  datatype Event = AddJudge(judge: Judge) | SetUp(name: string, reportTimeout: Option<int>, setDefault: bool)

  function TimeoutOf(reportTimeout: Option<int>): int {
    if reportTimeout.Some? then reportTimeout.value else DELTA_TIMEOUT
  }

  // The package's variables, and the framework's table of breakers.
  class Breakers {
    var newShouldCircuitBreak: Policy
    var table: map<string, Verdict>
    var default: Option<string>
    ghost var history: seq<Event>

    // After a run of events: the policy stacks all judges so far, and each breaker is
    // the policy as it was when the breaker was last set up.
    ghost predicate Valid()
      reads this
    {
      newShouldCircuitBreak == PolicyAfter(history) && table == TableAfter(history)
    }

    constructor ()
      ensures Valid() && history == []
    {
      newShouldCircuitBreak, table, default, history := Base(), map[], None, [];
    }

    method ShouldCircuitBreak(f: Judge)
      requires Valid()
      modifies this
      ensures Valid() && history == old(history) + [AddJudge(f)]
      ensures table == old(table) && default == old(default)
    {
      var oldNew := newShouldCircuitBreak;
      newShouldCircuitBreak := Above(f, oldNew);
      AfterAppend(history, AddJudge(f));
      history := history + [AddJudge(f)];
    }

    method Setup(name: string, reportTimeout: Option<int>, setDefault: bool)
      requires Valid()
      modifies this
      ensures Valid() && history == old(history) + [SetUp(name, reportTimeout, setDefault)]
      ensures newShouldCircuitBreak == old(newShouldCircuitBreak)
      ensures default == if setDefault then Some(PluginName(name)) else old(default)
    {
      var minClientTimeout := DELTA_TIMEOUT;
      if reportTimeout.Some? {
        minClientTimeout := reportTimeout.value;
      }
      var key := "polarismesh";
      if name != "" {
        key := name;
      }
      table := table[key := newShouldCircuitBreak(minClientTimeout)];
      if setDefault {
        default := Some(key);
      }
      AfterAppend(history, SetUp(name, reportTimeout, setDefault));
      history := history + [SetUp(name, reportTimeout, setDefault)];
    }
  }

  function PolicyAfter(history: seq<Event>): Policy {
    if history == [] then Base()
    else
      var last := history[|history| - 1];
      var before := PolicyAfter(history[..|history| - 1]);
      if last.AddJudge? then Above(last.judge, before) else before
  }

  function TableAfter(history: seq<Event>): map<string, Verdict> {
    if history == [] then map[]
    else
      var last := history[|history| - 1];
      var before := history[..|history| - 1];
      if last.SetUp?
      then TableAfter(before)[PluginName(last.name) := PolicyAfter(before)(TimeoutOf(last.reportTimeout))]
      else TableAfter(before)
  }

  lemma AfterAppend(history: seq<Event>, e: Event)
    ensures PolicyAfter(history + [e])
            == if e.AddJudge? then Above(e.judge, PolicyAfter(history)) else PolicyAfter(history)
    ensures TableAfter(history + [e])
            == if e.SetUp?
               then TableAfter(history)[PluginName(e.name) := PolicyAfter(history)(TimeoutOf(e.reportTimeout))]
               else TableAfter(history)
  {
    assert (history + [e])[..|history|] == history;
  }

  // ----- the stack is a first match -----------------------------------------------

  predicate Undecided(e: Event, err: Failure) {
    e.AddJudge? ==> e.judge(err) == Unknown
  }

  // Event number i added the newest judge with an opinion on the error.
  ghost predicate Newest(history: seq<Event>, err: Failure, i: nat) {
    && i < |history|
    && !Undecided(history[i], err)
    && (forall j :: i < j < |history| ==> Undecided(history[j], err))
  }

  // The newest judge with an opinion decides; if there is none, the default policy does.
  ghost predicate FirstMatch(history: seq<Event>, minTimeout: int, err: Failure, cost: int, verdict: Should) {
    if exists i: nat :: Newest(history, err, i)
    then exists i: nat :: Newest(history, err, i) && verdict == history[i].judge(err)
    else verdict == if BreaksByDefault(minTimeout, err, cost) then True else False
  }

  // An opinion anywhere makes some opinion the newest.
  lemma {:induction false} NewestExists(history: seq<Event>, err: Failure, i: nat) returns (newest: nat)
    requires i < |history| && !Undecided(history[i], err)
    ensures Newest(history, err, newest)
    decreases |history| - i
  {
    newest := i;
    if j: nat :| i < j < |history| && !Undecided(history[j], err) {
      newest := NewestExists(history, err, j);
    }
  }

  lemma SameNewest(history: seq<Event>, err: Failure, i: nat)
    requires history != [] && Undecided(history[|history| - 1], err)
    ensures Newest(history[..|history| - 1], err, i) <==> Newest(history, err, i)
  {
    var before := history[..|history| - 1];
    assert forall j :: 0 <= j < |before| ==> before[j] == history[j];
  }

  // The closures compute the first match, and so never end in Unknown.
  lemma {:induction false} StackIsFirstMatch(history: seq<Event>, minTimeout: int, err: Failure, cost: int)
    ensures FirstMatch(history, minTimeout, err, cost, PolicyAfter(history)(minTimeout)(err, cost))
    ensures PolicyAfter(history)(minTimeout)(err, cost) != Unknown
    decreases |history|
  {
    if history != [] {
      var n := |history| - 1;
      var before := history[..n];
      StackIsFirstMatch(before, minTimeout, err, cost);
      if Undecided(history[n], err) {
        forall i: nat
          ensures Newest(before, err, i) <==> Newest(history, err, i)
          ensures Newest(before, err, i) ==> before[i] == history[i]
        {
          SameNewest(history, err, i);
        }
      } else {
        assert Newest(history, err, n);
      }
    }
  }

  // There is only one first match, so it is the stack's verdict and no other.
  lemma FirstMatchUnique(history: seq<Event>, minTimeout: int, err: Failure, cost: int, v: Should, w: Should)
    requires FirstMatch(history, minTimeout, err, cost, v) && FirstMatch(history, minTimeout, err, cost, w)
    ensures v == w
  {
    if exists i: nat :: Newest(history, err, i) {
      var i: nat :| Newest(history, err, i) && v == history[i].judge(err);
      var j: nat :| Newest(history, err, j) && w == history[j].judge(err);
      assert i == j;
    }
  }

  // A breaker keeps the stack it was set up with: whatever is registered later, it decides
  // by the judges registered before its last set-up and by that set-up's timeout.
  lemma {:induction false} BreakerKeepsItsStack(history: seq<Event>, i: nat, err: Failure, cost: int)
    requires i < |history| && history[i].SetUp?
    requires forall j :: i < j < |history| && history[j].SetUp? ==>
                           PluginName(history[j].name) != PluginName(history[i].name)
    ensures var name := PluginName(history[i].name);
            && name in TableAfter(history)
            && FirstMatch(history[..i], TimeoutOf(history[i].reportTimeout), err, cost,
                          TableAfter(history)[name](err, cost))
    decreases |history|
  {
    var n := |history| - 1;
    if i == n {
      StackIsFirstMatch(history[..i], TimeoutOf(history[i].reportTimeout), err, cost);
    } else {
      BreakerKeepsItsStack(history[..n], i, err, cost);
      assert history[..n][..i] == history[..i];
    }
  }

  // So with no judge before it, it breaks on client timeouts from its own timeout on.
  lemma BreakerKeepsItsTimeout(history: seq<Event>, i: nat, cost: int)
    requires i < |history| && history[i].SetUp?
    requires forall j :: i < j < |history| && history[j].SetUp? ==>
                           PluginName(history[j].name) != PluginName(history[i].name)
    requires forall j :: 0 <= j < i ==> !history[j].AddJudge?
    ensures var name := if history[i].name == "" then "polarismesh" else history[i].name;
            var least := if history[i].reportTimeout.Some? then history[i].reportTimeout.value else 1_000_000;
            && name in TableAfter(history)
            && TableAfter(history)[name](TrpcError(ClientTimeout, true), cost)
               == if cost >= least then True else False
  {
    BreakerKeepsItsStack(history, i, TrpcError(ClientTimeout, true), cost);
    assert forall j: nat :: !Newest(history[..i], TrpcError(ClientTimeout, true), j);
  }

  // ----- the two reporters -----------------------------------------------------------

  datatype Update = Update(instance: Instance, failed: bool, delay: int, code: int)

  datatype ReportError = InvalidInstance | UpdateFailed(cause: string)

  predicate HasInstance(node: Node) {
    "instance" in node.metadata && node.metadata["instance"].TheInstance?
  }

  // The SDK's consumer, which counts the results of calls; `reply` is its answer.
  class Consumer {
    var updates: seq<Update>

    constructor ()
      ensures updates == []
    {
      updates := [];
    }

    method UpdateServiceCallResult(u: Update, reply: Reply<()>) returns (failed: bool)
      modifies this
      ensures updates == old(updates) + [u] && failed == reply.Failed?
    {
      updates := updates + [u];
      failed := reply.Failed?;
    }
  }

  function UpdateFor(node: Node, failed: bool, cost: int): Update
    requires HasInstance(node)
  {
    Update(node.metadata["instance"].instance, failed, cost, if failed then ERR_RET_CODE else 0)
  }

  predicate Skipped(should: Verdict, err: Option<Failure>, cost: int) {
    err.Some? && should(err.value, cost) !in {True, False}
  }

  predicate Counted(should: Verdict, err: Option<Failure>, cost: int) {
    err.Some? && should(err.value, cost) == True
  }

  function BreakerUpdate(should: Verdict, node: Node, cost: int, err: Option<Failure>): seq<Update> {
    if Skipped(should, err, cost) || !HasInstance(node) then []
    else [UpdateFor(node, Counted(should, err, cost), cost)]
  }

  function PackageUpdate(reportTimeout: Option<int>, node: Node, cost: int, err: Option<Failure>): seq<Update> {
    if !HasInstance(node) then []
    else [UpdateFor(node, !CanIgnoreError(err, TimeoutOf(reportTimeout), cost), cost)]
  }

  // CircuitBreaker.Report: one update with the verdict, unless the error is to be ignored
  // or the node has no instance.
  method BreakerReport(should: Verdict, consumer: Consumer, node: Node, cost: int, err: Option<Failure>,
                       reply: Reply<()>) returns (e: Option<ReportError>)
    modifies consumer
    ensures consumer.updates == old(consumer.updates) + BreakerUpdate(should, node, cost, err)
    ensures e == if Skipped(should, err, cost) then None
                 else if !HasInstance(node) then Some(InvalidInstance)
                 else if reply.Failed? then Some(UpdateFailed(reply.cause)) else None
  {
    var failed, retCode := false, 0;
    if err.Some? {
      match should(err.value, cost)
      case True =>
        failed := true;
        retCode := ERR_RET_CODE;
      case False =>
      case Unknown => return None;
      case Ignore => return None;
      case Unnamed(_) => return None;
    }
    if "instance" !in node.metadata || !node.metadata["instance"].TheInstance? {
      return Some(InvalidInstance);
    }
    var inst := node.metadata["instance"].instance;
    var bad := consumer.UpdateServiceCallResult(Update(inst, failed, cost, retCode), reply);
    e := if bad then Some(UpdateFailed(reply.cause)) else None;
  }

  predicate CanIgnoreError(err: Option<Failure>, reportTimeout: int, cost: int) {
    err.Some? ==>
      && err.value.TrpcError? && err.value.code.ClientTimeout? && err.value.framework
      && cost < reportTimeout
  }

  // The package's own Report, which the selector uses.
  method Report(consumer: Consumer, node: Node, reportTimeout: Option<int>, cost: int, err: Option<Failure>,
                reply: Reply<()>) returns (e: Option<ReportError>)
    modifies consumer
    ensures consumer.updates == old(consumer.updates) + PackageUpdate(reportTimeout, node, cost, err)
    ensures e == if !HasInstance(node) then Some(InvalidInstance)
                 else if reply.Failed? then Some(UpdateFailed(reply.cause)) else None
  {
    var delta := DELTA_TIMEOUT;
    if reportTimeout.Some? {
      delta := reportTimeout.value;
    }
    var failed, retCode := false, 0;
    if !CanIgnoreError(err, delta, cost) {
      failed := true;
      retCode := ERR_RET_CODE;
    }
    if "instance" !in node.metadata || !node.metadata["instance"].TheInstance? {
      return Some(InvalidInstance);
    }
    var inst := node.metadata["instance"].instance;
    var bad := consumer.UpdateServiceCallResult(Update(inst, failed, cost, retCode), reply);
    e := if bad then Some(UpdateFailed(reply.cause)) else None;
  }

  // An error only the framework's own codes make sense of.
  predicate OfThreeCodes(err: Failure) {
    err.TrpcError? && err.framework && !err.code.OtherCode?
  }

  // With no judge registered the policy is the default one. A breaker set up with the same
  // timeout then never ignores a report, every failure it counts the package's reporter
  // counts too, and they differ exactly on errors other than the three framework codes.
  lemma ReportersOrdered(reportTimeout: Option<int>, err: Option<Failure>, cost: int)
    ensures var should := Base()(TimeoutOf(reportTimeout));
            var byPackage := !CanIgnoreError(err, TimeoutOf(reportTimeout), cost);
            && !Skipped(should, err, cost)
            && (Counted(should, err, cost) ==> byPackage)
            && (Counted(should, err, cost) == byPackage <==> err.Some? ==> OfThreeCodes(err.value))
  {
  }

  // A client timeout counts from the configured timeout on, one millisecond by default, for
  // either reporter; connection and network errors count at any cost; and nothing else
  // counts for the breaker, while for the package everything else does.
  lemma TimeoutIsTheThreshold(reportTimeout: Option<int>, err: Failure, cost: int)
    ensures var counted := Counted(Base()(TimeoutOf(reportTimeout)), Some(err), cost);
            var byPackage := !CanIgnoreError(Some(err), TimeoutOf(reportTimeout), cost);
            match err
            case TrpcError(ClientTimeout, true) =>
              var late := if reportTimeout.Some? then cost >= reportTimeout.value else cost >= 1_000_000;
              counted == byPackage == late
            case TrpcError(ClientConnectFail, true) => counted && byPackage
            case TrpcError(ClientNetErr, true) => counted && byPackage
            case _ => !counted && byPackage
  {
  }

  // Slower calls and shorter timeouts never turn a counted failure into a success.
  lemma FailuresMonotone(t1: int, t2: int, err: Option<Failure>, c1: int, c2: int)
    requires t2 <= t1 && c1 <= c2
    ensures Counted(Base()(t1), err, c1) ==> Counted(Base()(t2), err, c2)
    ensures !CanIgnoreError(err, t1, c1) ==> !CanIgnoreError(err, t2, c2)
  {
  }

  // The newest judge with an opinion decides what is reported of a failed call: True a
  // failure with its code, False a success, and any other answer nothing at all.
  lemma NewestDecidesReport(history: seq<Event>, minTimeout: int, err: Failure, cost: int, node: Node, i: nat)
    requires Newest(history, err, i) && HasInstance(node)
    ensures var inst := node.metadata["instance"].instance;
            BreakerUpdate(PolicyAfter(history)(minTimeout), node, cost, Some(err)) ==
            match history[i].judge(err)
            case True => [Update(inst, true, cost, 10000)]
            case False => [Update(inst, false, cost, 0)]
            case Unknown => []
            case Ignore => []
            case Unnamed(_) => []
  {
    StackIsFirstMatch(history, minTimeout, err, cost);
    FirstMatchUnique(history, minTimeout, err, cost, history[i].judge(err),
                     PolicyAfter(history)(minTimeout)(err, cost));
  }

  datatype CallResult = CallResult(node: Node, cost: int, err: Option<Failure>)

  // The updates a run of calls causes, reported by a breaker or by the package.
  function BreakerUpdates(should: Verdict, calls: seq<CallResult>): seq<Update> {
    if calls == [] then []
    else
      var c := calls[|calls| - 1];
      BreakerUpdates(should, calls[..|calls| - 1]) + BreakerUpdate(should, c.node, c.cost, c.err)
  }

  function PackageUpdates(reportTimeout: Option<int>, calls: seq<CallResult>): seq<Update> {
    if calls == [] then []
    else
      var c := calls[|calls| - 1];
      PackageUpdates(reportTimeout, calls[..|calls| - 1]) + PackageUpdate(reportTimeout, c.node, c.cost, c.err)
  }

  function Failures(updates: seq<Update>): nat {
    if updates == [] then 0
    else Failures(updates[..|updates| - 1]) + if updates[|updates| - 1].failed then 1 else 0
  }

  predicate Ordered(c: CallResult, byBreaker: Update, byPackage: Update) {
    && HasInstance(c.node)
    && byBreaker == UpdateFor(c.node, byBreaker.failed, c.cost)
    && byPackage == UpdateFor(c.node, byPackage.failed, c.cost)
    && (byBreaker.failed ==> byPackage.failed)
    && (byBreaker.failed == byPackage.failed <==> c.err.Some? ==> OfThreeCodes(c.err.value))
  }

  predicate RunOrdered(calls: seq<CallResult>, byBreaker: seq<Update>, byPackage: seq<Update>) {
    && |byBreaker| == |byPackage| == |calls|
    && (forall i :: 0 <= i < |calls| ==> Ordered(calls[i], byBreaker[i], byPackage[i]))
    && Failures(byBreaker) <= Failures(byPackage)
  }

  lemma OrderedCall(reportTimeout: Option<int>, c: CallResult) returns (b: Update, p: Update)
    requires HasInstance(c.node)
    ensures BreakerUpdate(Base()(TimeoutOf(reportTimeout)), c.node, c.cost, c.err) == [b]
    ensures PackageUpdate(reportTimeout, c.node, c.cost, c.err) == [p]
    ensures Ordered(c, b, p)
  {
    ReportersOrdered(reportTimeout, c.err, c.cost);
    b := BreakerUpdate(Base()(TimeoutOf(reportTimeout)), c.node, c.cost, c.err)[0];
    p := PackageUpdate(reportTimeout, c.node, c.cost, c.err)[0];
  }

  lemma OrderedAppend(calls: seq<CallResult>, byBreaker: seq<Update>, byPackage: seq<Update>)
    requires var n := |calls| - 1;
             && |byBreaker| == |byPackage| == n + 1 > 0
             && RunOrdered(calls[..n], byBreaker[..n], byPackage[..n])
             && Ordered(calls[n], byBreaker[n], byPackage[n])
    ensures RunOrdered(calls, byBreaker, byPackage)
  {
    var n := |calls| - 1;
    forall i | 0 <= i < n
      ensures Ordered(calls[i], byBreaker[i], byPackage[i])
    {
      assert Ordered(calls[..n][i], byBreaker[..n][i], byPackage[..n][i]);
    }
  }

  predicate ReportersAgree(reportTimeout: Option<int>, calls: seq<CallResult>) {
    RunOrdered(calls, BreakerUpdates(Base()(TimeoutOf(reportTimeout)), calls), PackageUpdates(reportTimeout, calls))
  }

  lemma OrderedStep(reportTimeout: Option<int>, calls: seq<CallResult>)
    requires calls != [] && HasInstance(calls[|calls| - 1].node)
    requires ReportersAgree(reportTimeout, calls[..|calls| - 1])
    ensures ReportersAgree(reportTimeout, calls)
  {
    var n, should := |calls| - 1, Base()(TimeoutOf(reportTimeout));
    var byBreaker, byPackage := BreakerUpdates(should, calls), PackageUpdates(reportTimeout, calls);
    var b, p := OrderedCall(reportTimeout, calls[n]);
    assert byBreaker[..n] == BreakerUpdates(should, calls[..n]) && byBreaker[n] == b;
    assert byPackage[..n] == PackageUpdates(reportTimeout, calls[..n]) && byPackage[n] == p;
    OrderedAppend(calls, byBreaker, byPackage);
  }

  // A whole run of calls on nodes with instances, reported both ways: one update a call
  // each, in step, and never more failures by the breaker.
  lemma {:induction false} ReportersOrderedOverRun(reportTimeout: Option<int>, calls: seq<CallResult>)
    requires forall i :: 0 <= i < |calls| ==> HasInstance(calls[i].node)
    ensures ReportersAgree(reportTimeout, calls)
    decreases |calls|
  {
    if calls != [] {
      ReportersOrderedOverRun(reportTimeout, calls[..|calls| - 1]);
      OrderedStep(reportTimeout, calls);
    }
  }

  // Available: an instance without a breaker status is available.
  method Available(node: Node) returns (available: bool)
    ensures available <==> HasInstance(node) && node.metadata["instance"].instance.breaker != Some(false)
  {
    if "instance" !in node.metadata || !node.metadata["instance"].TheInstance? {
      return false;
    }
    var inst := node.metadata["instance"].instance;
    if inst.breaker.None? {
      return true;
    }
    return inst.breaker.value;
  }
}
