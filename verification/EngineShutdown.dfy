/**
 Shutting down: `Close` releases every request whose channel is in `pending`, nothing a handler
 does can block, and from any reachable state a `Close` call can run to its end without any
 context expiring.
 */
module EngineShutdown {
  import opened Bytes
  import opened Packets
  import opened Engine
  import opened Maps
  import opened EngineSafety

  // ---- Schedules -----------------------------------------------------------

  /** The steps are enabled one after the other and take `s` to `s'`. */
  ghost predicate Leads(s: State, steps: seq<Step>, s': State)
    decreases |steps|
  {
    if steps == [] then s' == s
    else Enabled(s, steps[0]) && Leads(Apply(s, steps[0]), steps[1..], s')
  }

  lemma {:induction false} LeadsOn(s: State, steps: seq<Step>, t: State, more: seq<Step>, u: State)
    requires Leads(s, steps, t) && Leads(t, more, u)
    ensures Leads(s, steps + more, u)
    decreases |steps|
  {
    hide Enabled, Apply;
    if steps == [] {
      assert steps + more == more;
    } else {
      LeadsOn(Apply(s, steps[0]), steps[1..], t, more, u);
      assert (steps + more)[1..] == steps[1..] + more;
    }
  }

  lemma {:induction false} LeadsKeepsInv(s: State, steps: seq<Step>, s': State)
    requires Inv(s) && Leads(s, steps, s')
    ensures Inv(s')
    decreases |steps|
  {
    hide Enabled, Apply, Inv;
    if steps != [] {
      StepKeepsInv(s, steps[0]);
      LeadsKeepsInv(Apply(s, steps[0]), steps[1..], s');
    }
  }

  lemma OneStep(s: State, step: Step)
    requires Enabled(s, step)
    ensures Leads(s, [step], Apply(s, step))
  {
    hide Enabled, Apply;
    assert Leads(Apply(s, step), [step][1..], Apply(s, step));
  }

  lemma StepLeads(s: State, step: Step, s': State)
    requires Enabled(s, step) && Apply(s, step) == s'
    ensures Leads(s, [step], s')
  {
    hide Enabled, Apply;
    OneStep(s, step);
  }

  // ---- Waiters -------------------------------------------------------------

  predicate ClosedFor(s: State, r: nat) {
    r in s.channels && s.channels[r].closed
  }

  /** The swap closes every registered channel and leaves what is buffered in it. */
  lemma SwapReleases(s: State, c: nat)
    requires Inv(s) && c in s.closers && s.closers[c] == Drained
    ensures CloserEnabled(s, c)
    ensures var s' := ApplyCloser(s, c);
            && s'.pending == map[]
            && forall k :: k in s.pending ==>
                 && s.pending[k] in s.channels && ClosedFor(s', s.pending[k])
                 && s'.channels[s.pending[k]].buffer == s.channels[s.pending[k]].buffer
  {
    hide RequestsOk, TicketsDistinct, HandlersOk, ShutdownOk, InvokeId, Holding, WouldCloseTwice;
    var t := s.(closers := s.closers[c := Swapped]);
    forall k | k in s.pending ensures s.pending[k] in s.channels && InPending(t, s.pending[k]) {
      assert EntryOk(k, s.pending[k], s.requests, s.channels, s.swaps);
      assert k in t.pending;
    }
  }

  /** A request step touches no channel but its own, and closes or reopens none. */
  lemma RequestKeepsClosed(s: State, x: nat, step: RequestStep, r: nat)
    requires Inv(s) && RequestEnabled(s, x, step) && ClosedFor(s, r)
    ensures ClosedFor(ApplyRequest(s, x, step), r)
  {
    if step == Allocate {
      assert RequestOk(s.requests[x], ChannelOf(s.channels, x), s.counter, s.swaps);
      AllocatesOwn(s, x);
    }
    hide Inv, Moved, NextMetrics, InvokeId, CanStep;
  }

  lemma HandlerKeepsClosed(s: State, h: nat, step: HandlerStep, r: nat)
    requires HandlerEnabled(s, h, step) && ClosedFor(s, r)
    ensures ClosedFor(ApplyHandler(s, h, step), r)
  {
    hide AfterLookup;
  }

  lemma CloserKeepsClosed(s: State, c: nat, r: nat)
    requires CloserEnabled(s, c) && ClosedFor(s, r)
    ensures ClosedFor(ApplyCloser(s, c), r)
  {
    hide InPending, WouldCloseTwice;
  }

  lemma ReceiverKeepsClosed(s: State, step: ReceiverStep, r: nat)
    requires ReceiverEnabled(s, step) && ClosedFor(s, r)
    ensures ClosedFor(ApplyReceiver(s, step), r)
  {
  }

  /** No step reopens a channel. */
  lemma ClosedStays(s: State, step: Step, r: nat)
    requires Inv(s) && Enabled(s, step) && ClosedFor(s, r)
    ensures ClosedFor(Apply(s, step), r)
  {
    hide Inv, RequestEnabled, ApplyRequest, HandlerEnabled, ApplyHandler, CloserEnabled, ApplyCloser, ReceiverEnabled,
      ApplyReceiver;
    match step
    case OfRequest(x, y) => RequestKeepsClosed(s, x, y, r);
    case OfHandler(h, x) => HandlerKeepsClosed(s, h, x, r);
    case OfCloser(c) => CloserKeepsClosed(s, c, r);
    case OfReceiver(x) => ReceiverKeepsClosed(s, x, r);
    case _ =>
  }

  lemma AllocatesOwn(s: State, r: nat)
    requires r in s.requests && CanStep(s.requests[r].phase, Allocate)
    requires RequestOk(s.requests[r], ChannelOf(s.channels, r), s.counter, s.swaps)
    ensures r !in s.channels
  {
  }

  lemma {:induction false} ClosedForever(states: seq<State>, steps: seq<Step>, i: nat, j: nat, r: nat)
    requires IsRun(states, steps) && i <= j < |states| && ClosedFor(states[i], r)
    ensures ClosedFor(states[j], r)
    decreases j - i
  {
    hide Inv, Enabled, Apply, ClosedFor;
    if i < j {
      ClosedForever(states, steps, i, j - 1, r);
      InitialInv();
      TraceKeepsInv(states, steps, j - 1);
      ClosedStays(states[j - 1], steps[j - 1], r);
    }
  }

  /** What a request does next of its own accord; it never relies on its context. */
  function OwnStep(p: Phase, transportClosed: bool): (x: RequestStep)
    requires Holding(p)
    ensures CanStep(p, x) && x != Cancel && (transportClosed ==> x != Send(true))
  {
    match p
    case Registered => CountSent
    case Counted => CountActive
    case Sending => Send(!transportClosed)
    case SendFailed => CountSendFailure
    case Waiting => Receive
    case Cancelled => CountTimeout
    case Received(_) => RecordLatency
    case Recorded(_) => CountOutcome
    case Leaving(_) => CountInactive
    case Unwinding(_) => Delete
  }

  /** A bound on the own steps that are left. */
  function StepsLeft(p: Phase): (n: nat) {
    match p
    case Registered => 8
    case Counted => 7
    case Sending => 6
    case SendFailed => 3
    case Waiting => 5
    case Cancelled => 3
    case Received(_) => 4
    case Recorded(_) => 3
    case Leaving(_) => 2
    case Unwinding(_) => 1
    case _ => 0
  }

  /** Still on its way to the send. */
  predicate BeforeSend(p: Phase) {
    p.Registered? || p.Counted? || p.Sending?
  }

  /** What a reply, or its absence in a closed channel, means to the caller. */
  function Verdict(reply: Option<Apdu>): (o: Outcome) {
    match reply
    case None => ConnectionClosed
    case Some(a) => if IsAck(a) then Answered(a) else if IsRefusal(a) then Refused(a) else Unexpected(a)
  }

  /** How the request will end if it runs on its own from here. */
  function Fate(p: Phase, buffer: Option<Apdu>, transportClosed: bool): (o: Outcome)
    requires Holding(p)
  {
    match p
    case SendFailed => SendError
    case Cancelled => TimedOut
    case Received(reply) => Verdict(reply)
    case Recorded(reply) => Verdict(reply)
    case Leaving(o) => o
    case Unwinding(o) => o
    case _ => if BeforeSend(p) && transportClosed then SendError else Verdict(buffer)
  }

  lemma OwnStepProgress(p: Phase, connected: bool, buffer: Option<Apdu>, transportClosed: bool)
    requires Holding(p)
    ensures var p' := NextPhase(p, OwnStep(p, transportClosed), connected, buffer);
            && StepsLeft(p') < StepsLeft(p)
            && (if p.Unwinding? then p' == Done(p.outcome)
                else
                  && Holding(p')
                  && Fate(p', if p.Waiting? then None else buffer, transportClosed) == Fate(p, buffer, transportClosed))
  {
  }

  /** Whether the request will come to receive. */
  predicate WillReceive(p: Phase, transportClosed: bool) {
    p.Waiting? || (BeforeSend(p) && !transportClosed)
  }

  /** If the request will come to receive, its channel holds a reply or is closed. */
  predicate Supplied(s: State, r: nat) {
    && r in s.requests && Holding(s.requests[r].phase) && r in s.channels
    && (WillReceive(s.requests[r].phase, s.transportClosed) ==> s.channels[r].closed || s.channels[r].buffer.Some?)
  }

  /** What the steps of request `r` leave alone. */
  predicate SameOthers(s: State, s': State, r: nat) {
    && s'.connection == s.connection && s'.counter == s.counter && s'.swaps == s.swaps
    && s'.receiver == s.receiver && s'.cancelled == s.cancelled && s'.transportClosed == s.transportClosed
    && s'.handlers == s.handlers
    && r in s'.requests && s'.requests == s.requests[r := s'.requests[r]]
    && r in s'.channels && s'.channels == s.channels[r := s'.channels[r]]
  }

  /** One own step of a supplied request is always possible. */
  lemma OwnStepTaken(s: State, r: nat)
    requires Supplied(s, r)
    ensures var p := s.requests[r].phase;
            && RequestEnabled(s, r, OwnStep(p, s.transportClosed))
            && var s' := ApplyRequest(s, r, OwnStep(p, s.transportClosed));
               && r in s'.channels && s'.channels[r].closed == s.channels[r].closed
               && SameOthers(s, s', r)
               && s'.requests[r].phase
                  == NextPhase(p, OwnStep(p, s.transportClosed), s.connection == Connected, Buffered(s, r))
               && s'.requests[r].ticket == s.requests[r].ticket
               && Buffered(s', r) == (if p.Waiting? then None else Buffered(s, r))
               && s'.pending == (if p.Unwinding? then s.pending - {InvokeId(s.requests[r].ticket)} else s.pending)
  {
    hide NextMetrics, NextPhase, InvokeId;
    var p := s.requests[r].phase;
    var step := OwnStep(p, s.transportClosed);
    OwnStepKind(p, s.transportClosed);
    assert RequestEnabled(s, r, step);
    hide OwnStep, CanStep, Holding, WillReceive;
  }

  /** Of the own steps only the first and the last touch more than a program counter. */
  lemma OwnStepKind(p: Phase, transportClosed: bool)
    requires Holding(p)
    ensures var x := OwnStep(p, transportClosed);
            && (x == Receive <==> p.Waiting?) && (x == Delete <==> p.Unwinding?) && x != SendUnconfirmed(true)
            && (IsPlainMove(x) <==> !p.Waiting? && !p.Unwinding?)
  {
  }

  /**
   A supplied request can always finish by itself: a reply that was buffered comes first and
   decides the outcome, otherwise the connection reads as closed.
   */
  lemma {:induction false} SuppliedCanFinish(s: State, r: nat) returns (steps: seq<Step>, s': State)
    requires Supplied(s, r)
    ensures Leads(s, steps, s')
    ensures forall x :: x in steps ==> x.OfRequest? && x.r == r && x.request != Cancel
    ensures SameOthers(s, s', r) && s'.pending == s.pending - {InvokeId(s.requests[r].ticket)}
    ensures s'.requests[r].phase == Done(Fate(s.requests[r].phase, Buffered(s, r), s.transportClosed))
    decreases StepsLeft(s.requests[r].phase)
  {
    var p := s.requests[r].phase;
    OwnStepTaken(s, r);
    OwnStepProgress(p, s.connection == Connected, Buffered(s, r), s.transportClosed);
    hide RequestEnabled, ApplyRequest, NextPhase, OwnStep, StepsLeft, CanStep, InvokeId;
    var step := OfRequest(r, OwnStep(p, s.transportClosed));
    var t := ApplyRequest(s, r, OwnStep(p, s.transportClosed));
    OneStep(s, step);
    if p.Unwinding? {
      steps, s' := [step], t;
    } else {
      StillSupplied(s, t, r);
      hide Supplied, Fate, Leads;
      var rest;
      rest, s' := SuppliedCanFinish(t, r);
      LeadsOn(s, [step], t, rest, s');
      steps := [step] + rest;
      SameOthersOn(s, t, s', r);
    }
  }

  lemma SameOthersOn(s: State, t: State, u: State, r: nat)
    requires SameOthers(s, t, r) && SameOthers(t, u, r)
    ensures SameOthers(s, u, r)
  {
    assert s.requests[r := t.requests[r]][r := u.requests[r]] == s.requests[r := u.requests[r]];
    assert s.channels[r := t.channels[r]][r := u.channels[r]] == s.channels[r := u.channels[r]];
  }

  lemma StillSupplied(s: State, t: State, r: nat)
    requires Supplied(s, r) && !s.requests[r].phase.Unwinding?
    requires r in t.channels && t.channels[r].closed == s.channels[r].closed
    requires r in t.requests && t.transportClosed == s.transportClosed
    requires var p := s.requests[r].phase;
             t.requests[r].phase
             == NextPhase(p, OwnStep(p, s.transportClosed), s.connection == Connected, Buffered(s, r))
    requires Buffered(t, r) == if s.requests[r].phase.Waiting? then None else Buffered(s, r)
    ensures Supplied(t, r)
  {
  }

  /** In particular one whose channel was closed by `Close`. */
  lemma ReleasedCanFinish(s: State, r: nat) returns (steps: seq<Step>, s': State)
    requires ClosedFor(s, r) && r in s.requests && Holding(s.requests[r].phase)
    ensures Leads(s, steps, s')
    ensures forall x :: x in steps ==> x.OfRequest? && x.r == r && x.request != Cancel
    ensures r in s'.requests
    ensures s'.requests[r].phase == Done(Fate(s.requests[r].phase, Buffered(s, r), s.transportClosed))
  {
    hide Leads, Fate, Holding, WillReceive;
    steps, s' := SuppliedCanFinish(s, r);
  }

  /** A waiter that `Close` released gets its buffered reply, or else the closed-channel result. */
  lemma ReleasedWaiter(s: State, r: nat)
    requires ClosedFor(s, r) && r in s.requests && s.requests[r].phase == Waiting
    ensures RequestEnabled(s, r, Receive)
    ensures ApplyRequest(s, r, Receive).requests[r].phase == Received(s.channels[r].buffer)
    ensures Fate(Waiting, s.channels[r].buffer, s.transportClosed)
            == if s.channels[r].buffer.Some? then Verdict(s.channels[r].buffer) else ConnectionClosed
  {
  }

  /**
   Over whole runs: a request whose channel is in `pending` when some `Close` reaches its swap can,
   at any later moment before its own deferred delete, finish by its own steps without its
   context. EngineStranding says what becomes of the others.
   */
  lemma CloseReleasesWaiters(states: seq<State>, steps: seq<Step>, i: nat, j: nat, k: byte)
    returns (own: seq<Step>, s': State)
    requires IsRun(states, steps) && i < j < |states|
    requires steps[i].OfCloser? && states[i].closers[steps[i].c] == Drained
    requires k in states[i].pending
    requires var r := states[i].pending[k]; r in states[j].requests && Holding(states[j].requests[r].phase)
    ensures var r := states[i].pending[k];
            && Leads(states[j], own, s')
            && (forall x :: x in own ==> x.OfRequest? && x.r == r && x.request != Cancel)
            && r in s'.requests
            && s'.requests[r].phase
               == Done(Fate(states[j].requests[r].phase, Buffered(states[j], r), states[j].transportClosed))
  {
    hide Inv, Apply, Leads, Fate, Holding, ClosedFor;
    InitialInv();
    TraceKeepsInv(states, steps, i);
    var c, r := steps[i].c, states[i].pending[k];
    SwapReleases(states[i], c);
    CloserApplied(states[i], c);
    ClosedForever(states, steps, i + 1, j, r);
    own, s' := ReleasedCanFinish(states[j], r);
  }

  lemma CloserApplied(s: State, c: nat)
    requires CloserEnabled(s, c)
    ensures Apply(s, OfCloser(c)) == ApplyCloser(s, c)
  {
  }

  // ---- Handlers ------------------------------------------------------------

  function NextOf(h: Handler): (x: HandlerStep) {
    match h
    case Decoding(_) => Lookup
    case Delivering(_, _) => Deliver
    case Returning => Return
  }

  function HandlerRank(h: Handler): (n: nat) {
    match h
    case Decoding(_) => 2
    case Delivering(_, _) => 1
    case Returning => 0
  }

  /** A live handler can always take its next step; no state of a channel or of the lock blocks it. */
  lemma HandlerNeverBlocks(s: State, h: nat)
    requires Inv(s) && h in s.handlers
    ensures HandlerEnabled(s, h, NextOf(s.handlers[h]))
  {
    hide RequestsOk, TicketsDistinct, PendingOk, Fits, HasTicket;
    assert HandlerOk(s.handlers[h], s.requests, s.channels);
    assert |s.handlers.Keys| > 0 && |s.handlers| == |s.handlers.Keys|;
  }

  /** What a handler step leaves alone. */
  predicate SameControl(s: State, s': State) {
    && s'.receiver == s.receiver && s'.closers == s.closers && s'.cancelled == s.cancelled
    && s'.connection == s.connection && s'.requests == s.requests && s'.transportClosed == s.transportClosed
  }

  lemma HandlerStepShape(s: State, h: nat)
    requires h in s.handlers && HandlerEnabled(s, h, NextOf(s.handlers[h]))
    ensures SameControl(s, ApplyHandler(s, h, NextOf(s.handlers[h])))
    ensures ApplyHandler(s, h, NextOf(s.handlers[h])).handlers == NextHandlers(s, h, NextOf(s.handlers[h]))
  {
    hide NextHandlers, Offer;
  }

  lemma LookupAdvances(s: State, data: seq<byte>)
    ensures HandlerRank(AfterLookup(s, data)) < 2
  {
    hide HandlePacket;
  }

  lemma HandlerNextRank(s: State, h: nat)
    requires h in s.handlers && HandlerEnabled(s, h, NextOf(s.handlers[h])) && !s.handlers[h].Returning?
    ensures var after := NextHandlers(s, h, NextOf(s.handlers[h]));
            h in after && HandlerRank(after[h]) < HandlerRank(s.handlers[h]) && after - {h} == s.handlers - {h}
  {
    hide AfterLookup;
    if s.handlers[h].Decoding? { LookupAdvances(s, s.handlers[h].data); }
    assert NextHandlers(s, h, NextOf(s.handlers[h])) - {h} == s.handlers - {h};
  }

  lemma {:induction false} HandlerCanFinish(s: State, h: nat) returns (steps: seq<Step>, s': State)
    requires Inv(s) && h in s.handlers
    ensures Leads(s, steps, s') && Inv(s') && SameControl(s, s')
    ensures forall x :: x in steps ==> x.OfHandler?
    ensures s'.handlers == s.handlers - {h}
    decreases HandlerRank(s.handlers[h])
  {
    HandlerNeverBlocks(s, h);
    HandlerStepShape(s, h);
    var step := OfHandler(h, NextOf(s.handlers[h]));
    var t := ApplyHandler(s, h, NextOf(s.handlers[h]));
    OneStep(s, step);
    StepKeepsInv(s, step);
    steps, s' := [step], t;
    if !s.handlers[h].Returning? {
      HandlerNextRank(s, h);
      hide Inv, HandlerEnabled, ApplyHandler, NextOf, NextHandlers, HandlerRank, Leads;
      var rest;
      rest, s' := HandlerCanFinish(t, h);
      LeadsOn(s, [step], t, rest, s');
      steps := [step] + rest;
    }
  }

  /** From every state, handler steps alone empty the set of handlers: the drain is always possible. */
  lemma {:induction false} HandlersCanDrain(s: State) returns (steps: seq<Step>, s': State)
    requires Inv(s)
    ensures Leads(s, steps, s') && Inv(s') && SameControl(s, s')
    ensures forall x :: x in steps ==> x.OfHandler?
    ensures s'.handlers == map[]
    decreases |s.handlers|
  {
    hide Inv;
    if s.handlers == map[] {
      steps, s' := [], s;
    } else {
      var h :| h in s.handlers;
      var first, t := HandlerCanFinish(s, h);
      RemoveKey(s.handlers, h);
      var rest;
      rest, s' := HandlersCanDrain(t);
      LeadsOn(s, first, t, rest, s');
      steps := first + rest;
    }
  }

  // ---- Receiver ------------------------------------------------------------

  lemma {:induction false} FreshHandler(keys: set<nat>) returns (h: nat)
    ensures h !in keys && forall k :: k in keys ==> k < h
  {
    if keys == {} {
      h := 0;
    } else {
      var k :| k in keys;
      var b := FreshHandler(keys - {k});
      h := if k < b then b else k + 1;
      forall x | x in keys ensures x < h {
        if x != k { assert x in keys - {k}; }
      }
    }
  }

  function ReceiverRank(r: Receiver): (n: nat) {
    match r
    case Got(_) => 4
    case Added(_) => 3
    case Reading => 2
    case Polling => 1
    case _ => 0
  }

  /** What the receiver leaves alone. */
  predicate SameCalls(s: State, s': State) {
    && s'.connection == s.connection && s'.counter == s.counter && s'.pending == s.pending
    && s'.requests == s.requests && s'.channels == s.channels && s'.cancelled == s.cancelled
    && s'.transportClosed == s.transportClosed && s'.closers == s.closers && s'.swaps == s.swaps
  }

  /** What the receiver does next when no packet comes; `h` is an unused handler name. */
  function NextReceive(r: Receiver, h: nat): (x: ReceiverStep)
    requires Running(r)
  {
    match r
    case Polling => Poll
    case Reading => Read(None)
    case Got(_) => AddHandler
    case Added(_) => SpawnHandler(h)
  }

  /** The receiver never blocks, and leaves requests, channels and `Close` calls alone. */
  lemma ReceiverMoves(s: State, h: nat)
    requires Running(s.receiver) && h !in s.handlers
    ensures ReceiverEnabled(s, NextReceive(s.receiver, h))
    ensures SameCalls(s, ApplyReceiver(s, NextReceive(s.receiver, h)))
    ensures ApplyReceiver(s, NextReceive(s.receiver, h)).receiver
            == match s.receiver
               case Polling => if s.cancelled then Exited else Reading
               case Got(data) => Added(data)
               case _ => Polling
  {
    match s.receiver
    case Polling =>
    case Reading =>
    case Got(_) =>
    case Added(_) =>
  }

  lemma ReceiverStepToExit(s: State) returns (step: ReceiverStep)
    requires s.cancelled && Running(s.receiver)
    ensures ReceiverEnabled(s, step)
    ensures ReceiverRank(ApplyReceiver(s, step).receiver) < ReceiverRank(s.receiver)
    ensures SameCalls(s, ApplyReceiver(s, step))
  {
    hide ReceiverEnabled, ApplyReceiver;
    var h := FreshHandler(s.handlers.Keys);
    ReceiverMoves(s, h);
    step := NextReceive(s.receiver, h);
  }

  /** A cancelled receiver can always reach its exit. */
  lemma {:induction false} ReceiverCanExit(s: State) returns (steps: seq<Step>, s': State)
    requires Inv(s) && (s.cancelled || !Running(s.receiver))
    ensures Leads(s, steps, s') && Inv(s') && SameCalls(s, s')
    ensures forall x :: x in steps ==> x.OfReceiver?
    ensures !Running(s'.receiver)
    decreases ReceiverRank(s.receiver)
  {
    hide Inv;
    if !Running(s.receiver) {
      steps, s' := [], s;
    } else {
      var x := ReceiverStepToExit(s);
      hide ReceiverEnabled, ApplyReceiver, ReceiverRank;
      var t := ApplyReceiver(s, x);
      OneStep(s, OfReceiver(x));
      StepKeepsInv(s, OfReceiver(x));
      var rest;
      rest, s' := ReceiverCanExit(t);
      LeadsOn(s, [OfReceiver(x)], t, rest, s');
      steps := [OfReceiver(x)] + rest;
    }
  }

  // ---- Close ---------------------------------------------------------------

  function CloseRank(c: CloseStep): (n: nat) {
    match c
    case Loaded => 5
    case Stored => 4
    case Stopped => 3
    case ReceiverGone => 2
    case Drained => 1
    case Swapped => 0
  }

  lemma CloserProgress(s: State, c: nat)
    requires CloserEnabled(s, c)
    ensures ApplyCloser(s, c).closers
            == if s.closers[c] == Swapped then s.closers - {c} else s.closers[c := NextClose(s.closers[c])]
  {
    hide CloseAndSwap;
    if s.closers[c] == Drained {
      SwapLeavesRest(s.(closers := s.closers[c := Swapped]));
    }
  }

  lemma CloserLeavesRequests(s: State, c: nat)
    requires CloserEnabled(s, c)
    ensures ApplyCloser(s, c).requests == s.requests
  {
    hide CloseAndSwap;
    if s.closers[c] == Drained {
      SwapLeavesRest(s.(closers := s.closers[c := Swapped]));
    }
  }

  lemma SwapLeavesRest(s: State)
    ensures CloseAndSwap(s).requests == s.requests && CloseAndSwap(s).closers == s.closers
  {
    hide InPending, WouldCloseTwice;
  }

  /** Whatever a `Close` call is waiting for can be brought about by the receiver and the handlers. */
  lemma CloserCanProceed(s: State, c: nat) returns (steps: seq<Step>, s': State)
    requires Inv(s) && c in s.closers
    ensures Leads(s, steps, s') && Inv(s') && s'.requests == s.requests
    ensures forall x :: x in steps ==> x.OfReceiver? || x.OfHandler?
    ensures c in s'.closers && s'.closers[c] == s.closers[c] && CloserEnabled(s', c)
  {
    StoppedIsCancelled(s, c);
    hide Inv;
    if s.closers[c] == Stopped {
      steps, s' := ReceiverCanExit(s);
    } else if s.closers[c] == ReceiverGone {
      steps, s' := HandlersCanDrain(s);
      NothingCounted(s', c);
    } else {
      steps, s' := [], s;
    }
  }

  lemma StoppedIsCancelled(s: State, c: nat)
    requires Inv(s) && c in s.closers
    ensures s.closers[c] == Stopped ==> s.cancelled
  {
    hide RequestsOk, TicketsDistinct, PendingOk, HandlersOk;
  }

  lemma NothingCounted(s: State, c: nat)
    requires Inv(s) && c in s.closers && s.closers[c] == ReceiverGone && s.handlers == map[]
    ensures s.waitGroup == 0
  {
    hide RequestsOk, TicketsDistinct, PendingOk, HandlersOk;
  }

  /**
   From every reachable state a `Close` call can run to its end, and no request has to move
   for that: neither a context nor a reply is needed.
   */
  lemma {:induction false} CloseCanComplete(s: State, c: nat) returns (steps: seq<Step>, s': State)
    requires Inv(s) && c in s.closers
    ensures Leads(s, steps, s') && c !in s'.closers && s'.requests == s.requests
    ensures forall x :: x in steps ==> x.OfReceiver? || x.OfHandler? || x == OfCloser(c)
    decreases CloseRank(s.closers[c])
  {
    hide Inv, CloserEnabled, ApplyCloser;
    var first, t := CloserCanProceed(s, c);
    CloserProgress(t, c);
    CloserLeavesRequests(t, c);
    var u := ApplyCloser(t, c);
    OneStep(t, OfCloser(c));
    StepKeepsInv(t, OfCloser(c));
    LeadsOn(s, first, t, [OfCloser(c)], u);
    steps, s' := first + [OfCloser(c)], u;
    if c in u.closers {
      var rest;
      rest, s' := CloseCanComplete(u, c);
      LeadsOn(s, steps, u, rest, s');
      steps := steps + rest;
    }
  }

  /**
   Every `Close` call on a connected client, also beside others that are under way, becomes one that
   can run to its end; on a disconnected client it changes nothing.
   */
  lemma CloseCallCanComplete(s: State, c: nat) returns (steps: seq<Step>, s': State)
    requires Inv(s) && CloseCallEnabled(s, c)
    ensures Leads(Apply(s, CloseCall(c)), steps, s') && c !in s'.closers && s'.requests == s.requests
    ensures s.connection == Disconnected ==> steps == [] && s' == s
    ensures s.connection == Connected ==> Apply(s, CloseCall(c)) == s.(closers := s.closers[c := Loaded])
  {
    StepKeepsInv(s, CloseCall(c));
    var t := Apply(s, CloseCall(c));
    if s.connection == Disconnected {
      steps, s' := [], s;
    } else {
      hide Inv, Leads;
      steps, s' := CloseCanComplete(t, c);
    }
  }
}
