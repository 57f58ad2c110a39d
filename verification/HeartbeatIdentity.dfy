/** Who the provider hears from: every heartbeat names the instance that was registered. */
module HeartbeatIdentity {
  import opened Wrappers
  import opened HeartbeatProtocol

  predicate Names(p: Params, a: Account, c: Call) {
    !c.RegisterCall? && c.endpoint == EndpointOf(p, a) && c.instanceId == a.instanceId
  }

  predicate Succeeded(c: Call) {
    c.RegisterCall? && c.reply.Some?
  }

  // With self-registration on, call number `reg` is the one successful registration,
  // nothing beats before it, and everything after it names what it registered. With it
  // off, there are only heartbeats, in the configured instance's name.
  predicate Faithful(p: Params, a: Account, started: bool, reg: nat) {
    if !p.enableRegister then
      && a.instanceId == p.configuredId
      && (forall c <- a.calls :: c.HeartbeatCall? && Names(p, a, c))
      && (!started ==> a.calls == [])
    else if !started then
      forall c <- a.calls :: !c.HeartbeatCall? && !Succeeded(c)
    else
      && reg < |a.calls|
      && a.calls[reg] == RegisterCall(EndpointOf(p, a), Some(a.instanceId))
      && (forall i :: 0 <= i < reg ==> !a.calls[i].HeartbeatCall? && !Succeeded(a.calls[i]))
      && (forall i :: reg < i < |a.calls| ==> Names(p, a, a.calls[i]))
  }

  predicate Started(s: State) {
    !s.beater.consumer.NotStarted?
  }

  lemma FaithfulStep(p: Params, s: State, a: Action, reg: nat) returns (after: nat)
    requires Faithful(p, s.account, Started(s), reg) && Enabled(p, s, a)
    ensures Faithful(p, Next(p, s, a).account, Started(Next(p, s, a)), after)
  {
    after := if a.Register? then |s.account.calls| else reg;
    match a
    case Watch(_) =>
    case Pulse(_) =>
    case Receive =>
    case Register(_, _, _) =>
    case Deregister =>
    case Advance(_) =>
  }

  lemma {:induction false} FaithfulRun(p: Params, s: State, schedule: seq<Action>, reg: nat) returns (after: nat)
    requires Faithful(p, s.account, Started(s), reg) && Legal(p, s, schedule)
    ensures Faithful(p, Exec(p, s, schedule).account, Started(Exec(p, s, schedule)), after)
    decreases |schedule|
  {
    after := reg;
    if schedule != [] {
      after := FaithfulStep(p, s, schedule[0], reg);
      after := FaithfulRun(p, Next(p, s, schedule[0]), schedule[1..], after);
    }
  }

  // The Register action that begins the heartbeat loop.
  predicate BeginsLoop(p: Params, a: Action) {
    a.Register? && Registered(p, a.reply)
  }

  function Began(p: Params, schedule: seq<Action>): (began: Option<Action>)
    ensures began.Some? ==> BeginsLoop(p, began.value)
  {
    if schedule == [] then None
    else if BeginsLoop(p, schedule[0]) then Some(schedule[0])
    else Began(p, schedule[1..])
  }

  // The account's own identity, once an action began the loop.
  predicate TakenFrom(p: Params, a: Account, began: Action) {
    && BeginsLoop(p, began)
    && a.host == began.host && a.port == began.port
    && a.instanceId == if p.enableRegister then began.reply.value else p.configuredId
  }

  lemma {:induction false} IdentityStays(p: Params, s: State, schedule: seq<Action>, began: Action)
    requires Started(s) && TakenFrom(p, s.account, began) && Legal(p, s, schedule)
    ensures Started(Exec(p, s, schedule)) && TakenFrom(p, Exec(p, s, schedule).account, began)
    decreases |schedule|
  {
    if schedule != [] {
      IdentityStays(p, Next(p, s, schedule[0]), schedule[1..], began);
    }
  }

  lemma {:induction false} BeganRun(p: Params, s: State, schedule: seq<Action>)
    requires !Started(s) && Legal(p, s, schedule)
    requires !p.enableRegister ==> s.account.instanceId == p.configuredId
    ensures var began := Began(p, schedule);
            && (Started(Exec(p, s, schedule)) <==> began.Some?)
            && (began.Some? ==> TakenFrom(p, Exec(p, s, schedule).account, began.value))
    decreases |schedule|
  {
    if schedule != [] {
      if BeginsLoop(p, schedule[0]) {
        IdentityStays(p, Next(p, s, schedule[0]), schedule[1..], schedule[0]);
      } else {
        BeganRun(p, Next(p, s, schedule[0]), schedule[1..]);
      }
    }
  }

  // What a run may tell the provider, given the action that began its loop, if any, and
  // with call number `reg` the registration made by it.
  predicate Identified(p: Params, calls: seq<Call>, began: Option<Action>, reg: nat)
    requires began.Some? ==> BeginsLoop(p, began.value)
  {
    if began.None? then
      && (forall c <- calls :: !c.HeartbeatCall? && !Succeeded(c))
      && (!p.enableRegister ==> calls == [])
    else
      var self := Endpoint(p.namespace, p.service, p.token, began.value.host, began.value.port);
      if p.enableRegister then
        && reg < |calls|
        && calls[reg] == RegisterCall(self, began.value.reply)
        && (forall i :: 0 <= i < reg ==> !calls[i].HeartbeatCall? && !Succeeded(calls[i]))
        && (forall i :: reg < i < |calls| ==> !calls[i].RegisterCall? && calls[i].endpoint == self
                                              && calls[i].instanceId == began.value.reply.value)
      else
        forall c <- calls :: c.HeartbeatCall? && c.endpoint == self && c.instanceId == p.configuredId
  }

  lemma FaithfulIsIdentified(p: Params, a: Account, began: Option<Action>, reg: nat)
    requires Faithful(p, a, began.Some?, reg)
    requires began.Some? ==> TakenFrom(p, a, began.value)
    ensures Identified(p, a.calls, began, reg)
  {
  }

  // Over every run: with registration on, the only successful registration is the one that
  // began the loop; it carries the configured namespace, service and token and the address
  // given, no heartbeat precedes it, and everything after it repeats its endpoint and names
  // the instance id it returned. With registration off there are only heartbeats, at the
  // address given and in the configured instance's name.
  lemma IdentityOverRun(p: Params, schedule: seq<Action>) returns (reg: nat)
    requires Legal(p, Boot(p), schedule)
    ensures Identified(p, Exec(p, Boot(p), schedule).account.calls, Began(p, schedule), reg)
  {
    reg := FaithfulRun(p, Boot(p), schedule, 0);
    BeganRun(p, Boot(p), schedule);
    FaithfulIsIdentified(p, Exec(p, Boot(p), schedule).account, Began(p, schedule), reg);
  }

  predicate SpeaksFor(p: Params, calls: seq<Call>) {
    forall c <- calls ::
      c.endpoint.namespace == p.namespace && c.endpoint.service == p.service && c.endpoint.token == p.token
  }

  lemma SpeaksForStep(p: Params, s: State, a: Action)
    requires SpeaksFor(p, s.account.calls) && Enabled(p, s, a)
    ensures SpeaksFor(p, Next(p, s, a).account.calls)
  {
  }

  lemma {:induction false} SpeaksForRun(p: Params, s: State, schedule: seq<Action>)
    requires SpeaksFor(p, s.account.calls) && Legal(p, s, schedule)
    ensures SpeaksFor(p, Exec(p, s, schedule).account.calls)
    decreases |schedule|
  {
    if schedule != [] {
      SpeaksForStep(p, s, schedule[0]);
      SpeaksForRun(p, Next(p, s, schedule[0]), schedule[1..]);
    }
  }

  // ----- every request, in order ------------------------------------------------------

  function Requests(calls: seq<Call>): seq<Call> {
    if calls == [] then []
    else
      var last := calls[|calls| - 1];
      Requests(calls[..|calls| - 1]) + if last.HeartbeatCall? then [] else [last]
  }

  // The endpoint given to Register last, and the instance id it obtained last.
  function EndpointAfter(p: Params, schedule: seq<Action>): Endpoint {
    if schedule == [] then Endpoint(p.namespace, p.service, p.token, "", 0)
    else
      match schedule[|schedule| - 1]
      case Register(host, port, _) => Endpoint(p.namespace, p.service, p.token, host, port)
      case _ => EndpointAfter(p, schedule[..|schedule| - 1])
  }

  function IdAfter(p: Params, schedule: seq<Action>): string {
    if schedule == [] then p.configuredId
    else
      match schedule[|schedule| - 1]
      case Register(_, _, Some(id)) => id
      case _ => IdAfter(p, schedule[..|schedule| - 1])
  }

  // With registration on, every Register and every Deregister is one request.
  function Requested(p: Params, schedule: seq<Action>): seq<Call> {
    if schedule == [] then []
    else
      var before := schedule[..|schedule| - 1];
      match schedule[|schedule| - 1]
      case Register(_, _, reply) => Requested(p, before) + [RegisterCall(EndpointAfter(p, schedule), reply)]
      case Deregister => Requested(p, before) + [DeregisterCall(EndpointAfter(p, before), IdAfter(p, before))]
      case _ => Requested(p, before)
  }

  lemma RequestsAppend(calls: seq<Call>, c: Call)
    ensures Requests(calls + [c]) == Requests(calls) + if c.HeartbeatCall? then [] else [c]
  {
    assert (calls + [c])[..|calls|] == calls;
  }

  predicate KeepsRequests(p: Params, a: Account, schedule: seq<Action>) {
    && EndpointOf(p, a) == EndpointAfter(p, schedule)
    && Requests(a.calls) == (if p.enableRegister then Requested(p, schedule) else [])
    && a.instanceId == if p.enableRegister then IdAfter(p, schedule) else p.configuredId
  }

  lemma RequestStep(p: Params, s: State, schedule: seq<Action>)
    requires schedule != [] && Enabled(p, s, schedule[|schedule| - 1])
    requires KeepsRequests(p, s.account, schedule[..|schedule| - 1])
    ensures KeepsRequests(p, Next(p, s, schedule[|schedule| - 1]).account, schedule)
  {
    var a := s.account;
    match schedule[|schedule| - 1]
    case Watch(_) =>
    case Pulse(_) => RequestsAppend(a.calls, HeartbeatCall(EndpointOf(p, a), a.instanceId, s.now));
    case Receive =>
    case Register(host, port, reply) =>
      RequestsAppend(a.calls, RegisterCall(EndpointOf(p, a.(host := host, port := port)), reply));
    case Deregister => RequestsAppend(a.calls, DeregisterCall(EndpointOf(p, a), a.instanceId));
    case Advance(_) =>
  }

  // Over every run the provider gets exactly one request for each Register, tried or
  // repeated, and one for each Deregister, in their order, with the address given last and
  // the instance id obtained last; and none with registration off.
  lemma {:induction false} RequestsOverRun(p: Params, schedule: seq<Action>)
    requires Legal(p, Boot(p), schedule)
    ensures KeepsRequests(p, Exec(p, Boot(p), schedule).account, schedule)
    decreases |schedule|
  {
    if schedule != [] {
      ExecLast(p, Boot(p), schedule);
      RequestsOverRun(p, schedule[..|schedule| - 1]);
      RequestStep(p, Exec(p, Boot(p), schedule[..|schedule| - 1]), schedule);
    }
  }
}
