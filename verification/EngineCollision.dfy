/**
 A run of ordinary use in which two requests meet under one invoke ID. One call waits for its
 reply while 128 subscriptions come one after the other, each taking an ID for itself and one
 for its request. All but the last have been answered, so no more than two requests are ever in
 flight, and yet the last one takes over the entry of the call that waits.
 */
module EngineCollision {
  import opened Bytes
  import opened Packets
  import opened Engine
  import opened EngineSafety
  import opened EngineWindow
  import opened EngineShutdown
  import opened EngineDelivery
  import opened EngineStranding
  import opened EngineCounters

  const SUBSCRIBE_COV: byte := 5

  // ---- Runs with few requests in flight ------------------------------------

  ghost predicate OnlyInFlight(s: State, k: nat) {
    forall r :: r in s.requests && InFlight(s.requests[r].phase) ==> r == 0 || r == k
  }

  ghost predicate AtMostTwo(s: State) {
    exists k :: OnlyInFlight(s, k)
  }

  ghost predicate IsSparseRun(states: seq<State>, steps: seq<Step>) {
    IsRun(states, steps) && forall i :: 0 <= i < |states| ==> AtMostTwo(states[i])
  }

  /** The step moves no request but `k`. */
  predicate Concerns(step: Step, k: nat) {
    match step
    case NewRequest(r, _) => r == k
    case OfRequest(r, _) => r == k
    case CloseCall(_) => false
    case OfCloser(_) => false
    case _ => true
  }

  lemma StepConcerns(s: State, step: Step, k: nat)
    requires Enabled(s, step) && Concerns(step, k) && OnlyInFlight(s, k)
    ensures OnlyInFlight(Apply(s, step), k)
  {
    hide RequestEnabled, ApplyRequest, HandlerEnabled, ApplyHandler, ReceiverEnabled, ApplyReceiver, ConnectEnabled,
      ApplyConnect, InFlight;
    match step
    case OfRequest(r, x) => StepShape(s, r, x);
    case OfReceiver(x) => ReceiverLeavesRequests(s, x);
    case OfHandler(h, x) => HandlerLeavesRequests(s, h, x);
    case OfConnect(x) => ConnectLeavesRequests(s, x);
    case _ =>
  }

  /** A run goes on by steps that concern one request. */
  lemma {:induction false} GoOn(states: seq<State>, steps: seq<Step>, more: seq<Step>, s': State, k: nat)
    returns (states': seq<State>, steps': seq<Step>)
    requires IsSparseRun(states, steps) && OnlyInFlight(states[|steps|], k)
    requires Leads(states[|steps|], more, s') && forall x :: x in more ==> Concerns(x, k)
    ensures IsSparseRun(states', steps') && states'[|steps'|] == s'
    decreases |more|
  {
    hide Enabled, Apply, OnlyInFlight, Concerns;
    if more == [] {
      states', steps' := states, steps;
    } else {
      var last := states[|steps|];
      var next := Apply(last, more[0]);
      StepConcerns(last, more[0], k);
      states', steps' := states + [next], steps + [more[0]];
      assert AtMostTwo(next);
      assert forall x :: x in more[1..] ==> x in more;
      states', steps' := GoOn(states', steps', more[1..], s', k);
    }
  }

  // ---- One request ---------------------------------------------------------

  /** One step of request `k` whose other fields are those of `s`. */
  lemma Moves(s: State, k: nat, q: Request, step: RequestStep)
    requires CanStep(q.phase, step) && IsPlainMove(step) && !s.transportClosed
    ensures var p := NextPhase(q.phase, step, s.connection == Connected, Buffered(s, k));
            Leads(s.(requests := s.requests[k := q]), [OfRequest(k, step)],
                  s.(requests := s.requests[k := q.(phase := p)], metrics := NextMetrics(s.metrics, q.phase, step)))
  {
    var t := s.(requests := s.requests[k := q]);
    var p := NextPhase(q.phase, step, s.connection == Connected, Buffered(s, k));
    assert t.requests[k := q.(phase := p)] == s.requests[k := q.(phase := p)];
    hide Leads, NextPhase, NextMetrics, CanStep, InvokeId;
    StepLeads(t, OfRequest(k, step),
              s.(requests := s.requests[k := q.(phase := p)], metrics := NextMetrics(s.metrics, q.phase, step)));
  }

  const CALLED: Request := Request(Called, 0, 0, [])
  const CHECKED: Request := Request(Checked, 0, 0, [])

  /** A call that finds the client connected. */
  lemma Calls(s: State, k: nat)
    requires k !in s.requests && s.connection == Connected && !s.transportClosed
    ensures Leads(s, [NewRequest(k, true), OfRequest(k, CheckState)], s.(requests := s.requests[k := CHECKED]))
  {
    var t := s.(requests := s.requests[k := CALLED]);
    StepLeads(s, NewRequest(k, true), t);
    Moves(s, k, CALLED, CheckState);
    hide Leads;
    LeadsOn(s, [NewRequest(k, true)], t, [OfRequest(k, CheckState)], s.(requests := s.requests[k := CHECKED]));
    assert [NewRequest(k, true)] + [OfRequest(k, CheckState)] == [NewRequest(k, true), OfRequest(k, CheckState)];
  }

  /** It takes its ID and registers. */
  function Registration(s: State, k: nat, phase: Phase, metrics: Metrics): (s': State) {
    s.(counter := s.counter + 1,
       requests := s.requests[k := Request(phase, s.counter + 1, s.swaps, [])],
       channels := s.channels[k := Channel(None, false)],
       pending := s.pending[InvokeId(s.counter + 1) := k],
       metrics := metrics)
  }

  /** What stands between the two. */
  function Allocation(s: State, k: nat): (s': State) {
    s.(counter := s.counter + 1,
       requests := s.requests[k := Request(Allocated, s.counter + 1, 0, [])],
       channels := s.channels[k := Channel(None, false)])
  }

  lemma Allocates(s: State, k: nat)
    ensures Leads(s.(requests := s.requests[k := CHECKED]), [OfRequest(k, Allocate)], Allocation(s, k))
  {
    var t := s.(requests := s.requests[k := CHECKED]);
    assert t.requests[k := Allocation(s, k).requests[k]] == Allocation(s, k).requests;
    AllocateShape(t, k);
    hide ApplyRequest, Leads;
    StepLeads(t, OfRequest(k, Allocate), Allocation(s, k));
  }

  lemma Registers(s: State, k: nat)
    ensures Leads(Allocation(s, k), [OfRequest(k, Register)], Registration(s, k, Registered, s.metrics))
  {
    var t, u := Allocation(s, k), Registration(s, k, Registered, s.metrics);
    assert t.requests[k := u.requests[k]] == u.requests;
    RegisterShape(t, k);
    hide ApplyRequest, Leads, InvokeId;
    StepLeads(t, OfRequest(k, Register), u);
  }

  /** One step further, counting or sending. */
  lemma Advances(s: State, k: nat, p: Phase, step: RequestStep, p': Phase, m: Metrics, m': Metrics)
    requires CanStep(p, step) && IsPlainMove(step) && s.connection == Connected && !s.transportClosed
    requires NextPhase(p, step, true, None) == p' && NextMetrics(m, p, step) == m'
    ensures Leads(Registration(s, k, p, m), [OfRequest(k, step)], Registration(s, k, p', m'))
  {
    hide Leads, NextPhase, NextMetrics, CanStep, InvokeId;
    Moves(Registration(s, k, p, m), k, Request(p, s.counter + 1, s.swaps, []), step);
    var t := Registration(s, k, p, m);
    assert t.requests[k := t.requests[k]] == t.requests;
    assert t.requests[k := Request(p', s.counter + 1, s.swaps, [])]
           == s.requests[k := Request(p', s.counter + 1, s.swaps, [])];
  }

  lemma CountsSent(s: State, k: nat, m: Metrics)
    requires s.connection == Connected && !s.transportClosed
    ensures Leads(Registration(s, k, Registered, m), [OfRequest(k, CountSent)],
                  Registration(s, k, Counted, m.(sent := m.sent + 1)))
  {
    hide Leads, Registration;
    Advances(s, k, Registered, CountSent, Counted, m, m.(sent := m.sent + 1));
  }

  lemma CountsActive(s: State, k: nat, m: Metrics)
    requires s.connection == Connected && !s.transportClosed
    ensures Leads(Registration(s, k, Counted, m), [OfRequest(k, CountActive)],
                  Registration(s, k, Sending, m.(active := m.active + 1)))
  {
    hide Leads, Registration;
    Advances(s, k, Counted, CountActive, Sending, m, m.(active := m.active + 1));
  }

  lemma SendsOut(s: State, k: nat, m: Metrics)
    requires s.connection == Connected && !s.transportClosed
    ensures Leads(Registration(s, k, Sending, m), [OfRequest(k, Send(true))], Registration(s, k, Waiting, m))
  {
    hide Leads, Registration;
    Advances(s, k, Sending, Send(true), Waiting, m, m);
  }

  /** A call made, sent and waiting. */
  lemma Waits(s: State, k: nat) returns (steps: seq<Step>, s': State)
    requires k !in s.requests && s.connection == Connected && !s.transportClosed
    ensures Leads(s, steps, s') && forall x :: x in steps ==> Concerns(x, k)
    ensures exists m :: s' == Registration(s, k, Waiting, m)
  {
    hide Leads, Registration, Allocation;
    var m1 := s.metrics.(sent := s.metrics.sent + 1);
    var m2 := m1.(active := m1.active + 1);
    s' := Registration(s, k, Waiting, m2);
    steps := [NewRequest(k, true), OfRequest(k, CheckState)];
    Calls(s, k);
    Allocates(s, k);
    LeadsOn(s, steps, s.(requests := s.requests[k := CHECKED]), [OfRequest(k, Allocate)], Allocation(s, k));
    steps := steps + [OfRequest(k, Allocate)];
    Registers(s, k);
    LeadsOn(s, steps, Allocation(s, k), [OfRequest(k, Register)], Registration(s, k, Registered, s.metrics));
    steps := steps + [OfRequest(k, Register)];
    CountsSent(s, k, s.metrics);
    LeadsOn(s, steps, Registration(s, k, Registered, s.metrics), [OfRequest(k, CountSent)],
            Registration(s, k, Counted, m1));
    steps := steps + [OfRequest(k, CountSent)];
    CountsActive(s, k, m1);
    LeadsOn(s, steps, Registration(s, k, Counted, m1), [OfRequest(k, CountActive)], Registration(s, k, Sending, m2));
    steps := steps + [OfRequest(k, CountActive)];
    SendsOut(s, k, m2);
    LeadsOn(s, steps, Registration(s, k, Sending, m2), [OfRequest(k, Send(true))], s');
    steps := steps + [OfRequest(k, Send(true))];
  }

  // ---- Subscriptions -------------------------------------------------------

  /** Request 0 waits under ID 1, and `n` subscriptions have come and gone. */
  ghost predicate Subscribed(s: State, n: nat) {
    && Inv(s) && s.connection == Connected && s.receiver == Polling && !s.cancelled && !s.transportClosed
    && s.counter == 1 + 2 * n && s.pending == map[1 := 0]
    && (forall r: nat :: r in s.requests <==> r <= n)
    && WaitsEmpty(s, 0) && s.requests[0].ticket == 1 && s.requests[0].epoch == s.swaps
    && NoneDelivering(s.handlers, 0)
    && (forall r :: 1 <= r <= n ==> IsAnswered(s.requests[r]))
  }

  predicate IsAnswered(q: Request) {
    q.phase.Done? && q.phase.outcome.Answered?
  }

  lemma OnlyFirst(s: State, n: nat, k: nat)
    requires Subscribed(s, n)
    ensures OnlyInFlight(s, k)
  {
    hide Inv;
  }

  /** The subscription has its own ID, and its request waits under the next one. */
  ghost predicate Subscribing(s: State, n: nat) {
    && s.connection == Connected && s.receiver == Polling && !s.cancelled && !s.transportClosed
    && s.counter == 3 + 2 * n && s.pending == map[1 := 0, InvokeId(3 + 2 * n) := n + 1]
    && (forall r: nat :: r in s.requests <==> r <= n + 1)
    && WaitsEmpty(s, 0) && s.requests[0].ticket == 1 && s.requests[0].epoch == s.swaps
    && NoneDelivering(s.handlers, 0)
    && (forall r :: 1 <= r <= n ==> IsAnswered(s.requests[r]))
    && s.requests[n + 1] == Request(Waiting, 3 + 2 * n, s.swaps, [])
    && n + 1 in s.channels && s.channels[n + 1].buffer == None
  }

  lemma RegistrationSubscribes(s: State, n: nat, m: Metrics)
    requires Subscribed(s, n)
    ensures Subscribing(Registration(s.(counter := s.counter + 1), n + 1, Waiting, m), n)
  {
    hide Inv, InvokeId;
  }

  lemma SubscriptionAsks(s: State, n: nat) returns (steps: seq<Step>, s': State)
    requires Subscribed(s, n)
    ensures Leads(s, steps, s') && Inv(s') && Subscribing(s', n)
    ensures forall x :: x in steps ==> Concerns(x, n + 1)
  {
    hide Inv, Leads, Subscribing, Registration;
    var t := s.(counter := s.counter + 1);
    StepLeads(s, CovTicket, t);
    var first;
    first, s' := Waits(t, n + 1);
    var m :| s' == Registration(t, n + 1, Waiting, m);
    RegistrationSubscribes(s, n, m);
    LeadsOn(s, [CovTicket], t, first, s');
    steps := [CovTicket] + first;
    LeadsKeepsInv(s, steps, s');
  }

  lemma OwnIdIsFree(n: nat)
    requires n < 127
    ensures InvokeId(3 + 2 * n) == 3 + 2 * n
  {
    InvokeIdIsLowByte(3 + 2 * n);
  }

  lemma SubscribingCanReceive(s: State, n: nat)
    requires Subscribing(s, n) && n < 127
    ensures CanReceive(s, n + 1) && s.requests[n + 1].ticket == 3 + 2 * n
  {
    hide InvokeId;
    OwnIdIsFree(n);
  }

  lemma AnsweredIsSubscribed(s: State, s': State, n: nat, a: Apdu)
    requires Subscribing(s, n) && n < 127 && Inv(s') && IsAck(a)
    requires n + 1 in s.requests && Answers(s, s', n + 1, a)
    ensures Subscribed(s', n + 1)
  {
    hide Inv, InvokeId;
    OwnIdIsFree(n);
    assert map[1 := 0, InvokeId(3 + 2 * n) := n + 1] - {InvokeId(3 + 2 * n)} == map[1 := 0];
  }

  lemma DeliveryConcerns(steps: seq<Step>, k: nat)
    requires forall x :: x in steps ==> IsDeliveryStep(x, k)
    ensures forall x :: x in steps ==> Concerns(x, k)
  {
  }

  function SubscribeAck(id: byte): (a: Apdu) {
    Apdu(SIMPLE_ACK, false, false, 0, 0, id, 0, 0, SUBSCRIBE_COV, [])
  }

  lemma SubscribeAckAnswers(id: byte)
    ensures HandlePacket(SimpleAckPacket(id, SUBSCRIBE_COV)) == ToResponse(SubscribeAck(id))
    ensures IsAck(SubscribeAck(id)) && SubscribeAck(id).invokeId == id
  {
    hide HandlePacket, SimpleAckPacket;
    SimpleAckDispatch(id, SUBSCRIBE_COV);
  }

  /** A whole subscription: its own ID, its request, the Simple-Ack of the device. */
  lemma Subscribes(s: State, n: nat) returns (steps: seq<Step>, s': State)
    requires Subscribed(s, n) && n < 127
    ensures Leads(s, steps, s') && Subscribed(s', n + 1) && forall x :: x in steps ==> Concerns(x, n + 1)
  {
    hide Leads, Inv, InvokeId, HandlePacket, Subscribing, Subscribed, Answers, Concerns, IsDeliveryStep,
      SimpleAckPacket, SubscribeAck;
    var k, id := n + 1, InvokeId(3 + 2 * n);
    var first, t := SubscriptionAsks(s, n);
    SubscribingCanReceive(t, n);
    SubscribeAckAnswers(id);
    var second;
    second, s' := ReplyReachesCaller(t, k, SimpleAckPacket(id, SUBSCRIBE_COV), SubscribeAck(id));
    AnsweredIsSubscribed(t, s', n, SubscribeAck(id));
    LeadsOn(s, first, t, second, s');
    DeliveryConcerns(second, k);
    steps := first + second;
  }

  lemma {:induction false} SubscriptionRun(n: nat) returns (states: seq<State>, steps: seq<Step>)
    requires n <= 127
    ensures IsSparseRun(states, steps) && Subscribed(states[|steps|], n)
  {
    hide Leads, Subscribed, Concerns, OnlyInFlight, Inv, Enabled, Apply;
    if n == 0 {
      states, steps := FirstRun();
    } else {
      states, steps := SubscriptionRun(n - 1);
      var more, s' := Subscribes(states[|steps|], n - 1);
      OnlyFirst(states[|steps|], n - 1, n);
      states, steps := GoOn(states, steps, more, s', n);
    }
  }

  const CONNECTED: State := INITIAL.(connection := Connected, receiver := Polling)

  lemma ConnectConcerns(steps: seq<Step>)
    requires forall x :: x in steps ==> x.OfConnect?
    ensures forall x :: x in steps ==> Concerns(x, 0)
  {
  }

  lemma FirstIsSubscribed(m: Metrics)
    requires Inv(Registration(CONNECTED, 0, Waiting, m))
    ensures Subscribed(Registration(CONNECTED, 0, Waiting, m), 0)
  {
    hide Inv;
    InvokeIdIsLowByte(1);
    assert Registration(CONNECTED, 0, Waiting, m).pending == map[1 := 0];
  }

  lemma NothingInFlight()
    ensures OnlyInFlight(INITIAL, 0)
  {
  }

  /** The client connects and request 0 is made, sent and waiting. */
  lemma FirstRun() returns (states: seq<State>, steps: seq<Step>)
    ensures IsSparseRun(states, steps) && Subscribed(states[|steps|], 0)
  {
    hide Leads, Inv, Registration, OnlyInFlight, Subscribed, Concerns, Enabled, Apply;
    var connects := Connects(INITIAL);
    ConnectConcerns(connects);
    var first, s' := Waits(CONNECTED, 0);
    var m :| s' == Registration(CONNECTED, 0, Waiting, m);
    LeadsOn(INITIAL, connects, CONNECTED, first, s');
    InitialInv();
    LeadsKeepsInv(INITIAL, connects + first, s');
    FirstIsSubscribed(m);
    NothingInFlight();
    states, steps := [INITIAL], [];
    assert AtMostTwo(states[0]);
    states, steps := GoOn(states, steps, connects + first, s', 0);
  }

  // ---- The collision -------------------------------------------------------

  /** Two requests are registered under ID 1, the entry is the later one's, and the other is stranded. */
  ghost predicate Collided(s: State) {
    && (forall r: nat :: r in s.requests <==> r <= 128) && s.counter == 257
    && (forall r :: 1 <= r <= 127 ==> IsAnswered(s.requests[r]))
    && Unfinished(s.requests[0], s.swaps) && Unfinished(s.requests[128], s.swaps)
    && s.pending == map[1 := 128] && !Exact(s)
    && Stranded(s, 0)
  }

  /** The 128th subscription takes ticket 256 for itself and 257 for its request. */
  lemma LastCollides(s: State)
    requires Subscribing(s, 127)
    ensures Collided(s)
  {
    InvokeIdIsLowByte(1);
    InvokeIdIsLowByte(257);
    hide InvokeId, NoneDelivering, Exact;
    assert s.pending == map[1 := 128];
    assert Unfinished(s.requests[0], s.swaps);
    NotExact(s, 0, 1);
  }

  /**
   127 subscriptions are answered. The last one takes over the ID of the call that still waits,
   and nothing but its context can end that call any more.
   */
  lemma TwoRequestsCollide() returns (states: seq<State>, steps: seq<Step>)
    ensures IsSparseRun(states, steps) && Collided(states[|steps|])
  {
    hide Leads, Collided, Subscribed, Subscribing, Concerns, OnlyInFlight, Inv, Enabled, Apply;
    states, steps := SubscriptionRun(127);
    var s := states[|steps|];
    OnlyFirst(s, 127, 128);
    var more, t := SubscriptionAsks(s, 127);
    LastCollides(t);
    states, steps := GoOn(states, steps, more, t, 128);
  }
}
