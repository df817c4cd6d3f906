/**
 Which waiting calls `Close` releases. A call that lost its entry in `pending` to another request
 is out of reach of every reply and of every `Close`: only its context can end it. A call that
 registers after the swap is out of reach while the client stays disconnected.
 */
module EngineStranding {
  import opened Bytes
  import opened Packets
  import opened Engine
  import opened EngineSafety
  import opened EngineWindow
  import opened EngineShutdown
  import opened EngineDelivery

  // ---- Waiting calls -------------------------------------------------------

  /** The call waits, its channel is open and nothing is buffered in it. */
  predicate WaitsEmpty(s: State, r: nat) {
    r in s.requests && s.requests[r].phase == Waiting && r in s.channels && s.channels[r] == Channel(None, false)
  }

  /** Neither a lookup nor a swap can find the call any more, and no handler has found it already. */
  ghost predicate Stranded(s: State, r: nat) {
    WaitsEmpty(s, r) && !InPending(s, r) && NoneDelivering(s.handlers, r)
  }

  /** Steps that leave a waiting call where it is. */
  lemma RequestLeavesWaiting(s: State, x: nat, step: RequestStep, r: nat)
    requires WaitsEmpty(s, r) && RequestEnabled(s, x, step) && OfRequest(x, step) != OfRequest(r, Cancel)
    ensures x != r && WaitsEmpty(ApplyRequest(s, x, step), r)
  {
    hide NextMetrics, NextPhase, NextPending, InvokeId;
  }

  /** The steps of other requests put no entry of this one into the map. */
  lemma RequestStrands(s: State, x: nat, step: RequestStep, r: nat)
    requires Stranded(s, r) && RequestEnabled(s, x, step) && OfRequest(x, step) != OfRequest(r, Cancel)
    ensures Stranded(ApplyRequest(s, x, step), r)
  {
    RequestLeavesWaiting(s, x, step, r);
    hide NextMetrics, NextRequest, NextChannels, InvokeId, WaitsEmpty, CanStep;
    var s' := ApplyRequest(s, x, step);
    forall k | k in s'.pending ensures s'.pending[k] != r {
      if s'.pending[k] != x { assert k in s.pending && s.pending[k] == s'.pending[k]; }
    }
  }

  lemma LookupMisses(s: State, data: seq<byte>, r: nat)
    requires !InPending(s, r)
    ensures AfterLookup(s, data).Delivering? ==> AfterLookup(s, data).channel != r
  {
    hide HandlePacket;
  }

  lemma HandlerStrands(s: State, h: nat, step: HandlerStep, r: nat)
    requires Stranded(s, r) && HandlerEnabled(s, h, step)
    ensures Stranded(ApplyHandler(s, h, step), r)
  {
    if step == Lookup { LookupMisses(s, s.handlers[h].data, r); }
    hide AfterLookup;
    var s' := ApplyHandler(s, h, step);
    assert s'.pending == s.pending;
    SamePending(s, s', r);
    hide InPending;
  }

  lemma SamePending(s: State, s': State, r: nat)
    requires s'.pending == s.pending
    ensures InPending(s', r) == InPending(s, r)
  {
  }

  lemma ReceiverStrands(s: State, step: ReceiverStep, r: nat)
    requires Stranded(s, r) && ReceiverEnabled(s, step)
    ensures Stranded(ApplyReceiver(s, step), r)
  {
    hide NextReceiver, InPending;
    SamePending(s, ApplyReceiver(s, step), r);
  }

  lemma SwapStrands(s: State, r: nat)
    requires Stranded(s, r)
    ensures Stranded(CloseAndSwap(s), r)
  {
    hide WouldCloseTwice;
    assert !InPending(CloseAndSwap(s), r);
    hide InPending;
  }

  lemma CloserStrands(s: State, c: nat, r: nat)
    requires Stranded(s, r) && CloserEnabled(s, c)
    ensures Stranded(ApplyCloser(s, c), r)
  {
    hide CloseAndSwap, InPending;
    var step := s.closers[c];
    var t := s.(connection := if step == Loaded then Disconnected else s.connection,
                cancelled := s.cancelled || step == Stored,
                transportClosed := s.transportClosed || step == Swapped,
                closers := if step == Swapped then s.closers - {c} else s.closers[c := NextClose(step)]);
    SamePending(s, t, r);
    if step == Drained { SwapStrands(t, r); }
  }

  lemma OtherStrands(s: State, step: Step, r: nat)
    requires Stranded(s, r) && Enabled(s, step)
    requires step.NewRequest? || step.CovTicket? || step.OfConnect? || step.CloseCall?
    ensures Stranded(Apply(s, step), r)
  {
    hide RequestEnabled, ApplyRequest, ReceiverEnabled, ApplyReceiver, HandlerEnabled, ApplyHandler, CloserEnabled,
      ApplyCloser, InPending, NoneDelivering;
    SamePending(s, Apply(s, step), r);
    if step.NewRequest? {
    } else if step.OfConnect? {
    } else {
    }
  }

  lemma StepStrands(s: State, step: Step, r: nat)
    requires Stranded(s, r) && Enabled(s, step) && step != OfRequest(r, Cancel)
    ensures Stranded(Apply(s, step), r)
  {
    hide Stranded, RequestEnabled, ApplyRequest, ReceiverEnabled, ApplyReceiver, HandlerEnabled, ApplyHandler,
      CloserEnabled, ApplyCloser;
    match step
    case OfRequest(x, y) => RequestStrands(s, x, y, r);
    case OfReceiver(x) => ReceiverStrands(s, x, r);
    case OfHandler(h, x) => HandlerStrands(s, h, x, r);
    case OfCloser(c) => CloserStrands(s, c, r);
    case _ => OtherStrands(s, step, r);
  }

  /**
   In every run: a stranded call goes on waiting until its own context ends, through any replies,
   any `Close` and any later connection.
   */
  lemma {:induction false} StrandedForever(states: seq<State>, steps: seq<Step>, i: nat, j: nat, r: nat)
    requires IsTrace(states, steps) && i <= j < |states| && Stranded(states[i], r)
    requires forall k :: i <= k < j ==> steps[k] != OfRequest(r, Cancel)
    ensures Stranded(states[j], r)
    decreases j - i
  {
    hide Enabled, Apply, Stranded;
    if i < j {
      StrandedForever(states, steps, i, j - 1, r);
      StepStrands(states[j - 1], steps[j - 1], r);
    }
  }

  // ---- Ending without the context ------------------------------------------

  predicate Patient(steps: seq<Step>, r: nat) {
    forall x :: x in steps ==> x != OfRequest(r, Cancel)
  }

  /** Some schedule, of any steps of any goroutine, ends the call without its context. */
  ghost predicate CanEnd(s: State, r: nat) {
    exists steps, s' :: Leads(s, steps, s') && Patient(steps, r) && r in s'.requests && s'.requests[r].phase.Done?
  }

  lemma {:induction false} StrandedLeads(s: State, steps: seq<Step>, s': State, r: nat)
    requires Stranded(s, r) && Leads(s, steps, s') && Patient(steps, r)
    ensures Stranded(s', r)
    decreases |steps|
  {
    hide Enabled, Apply, Stranded;
    if steps != [] {
      assert steps[0] in steps && forall x :: x in steps[1..] ==> x in steps;
      StepStrands(s, steps[0], r);
      StrandedLeads(Apply(s, steps[0]), steps[1..], s', r);
    }
  }

  lemma StrandedCannotEnd(s: State, r: nat)
    requires Stranded(s, r)
    ensures !CanEnd(s, r)
  {
    hide Leads;
    forall steps, s' | Leads(s, steps, s') && Patient(steps, r)
      ensures r in s'.requests && s'.requests[r].phase == Waiting
    {
      StrandedLeads(s, steps, s', r);
    }
  }

  lemma EndsLater(s: State, steps: seq<Step>, t: State, r: nat)
    requires Leads(s, steps, t) && Patient(steps, r) && CanEnd(t, r)
    ensures CanEnd(s, r)
  {
    hide Leads;
    var more, u :| Leads(t, more, u) && Patient(more, r) && r in u.requests && u.requests[r].phase.Done?;
    LeadsOn(s, steps, t, more, u);
    assert Patient(steps + more, r);
  }

  lemma ClosedCanEnd(s: State, r: nat)
    requires ClosedFor(s, r) && r in s.requests && Holding(s.requests[r].phase)
    ensures CanEnd(s, r)
  {
    hide Leads, Fate, Holding, ClosedFor;
    var steps, s' := ReleasedCanFinish(s, r);
    assert Patient(steps, r);
  }

  lemma EntryCanEnd(s: State, c: nat, r: nat)
    requires Inv(s) && c in s.closers && s.closers[c] == Drained && r in s.requests && s.requests[r].phase == Waiting
    requires IsEntry(s.pending, InvokeId(s.requests[r].ticket), r)
    ensures CanEnd(s, r)
  {
    hide Inv, CloserEnabled, ApplyCloser, InvokeId, ClosedFor, Leads;
    SwapReleases(s, c);
    CloserLeavesRequests(s, c);
    OneStep(s, OfCloser(c));
    ClosedCanEnd(ApplyCloser(s, c), r);
    EndsLater(s, [OfCloser(c)], ApplyCloser(s, c), r);
  }

  /** Without an entry under its own ID a request has no entry at all. */
  lemma NoOtherEntry(s: State, r: nat)
    requires Inv(s) && r in s.requests && !IsEntry(s.pending, InvokeId(s.requests[r].ticket), r)
    ensures !InPending(s, r)
  {
    hide RequestsOk, TicketsDistinct, HandlersOk, ShutdownOk, InvokeId, Holding;
    forall k | k in s.pending ensures s.pending[k] != r {
      assert EntryOk(k, s.pending[k], s.requests, s.channels, s.swaps);
    }
  }

  /** Since its registration no swap has closed the channel of an unfinished request. */
  lemma UnfinishedIsOpen(s: State, r: nat)
    requires Inv(s) && r in s.requests && Unfinished(s.requests[r], s.swaps)
    ensures r in s.channels && !s.channels[r].closed
  {
    hide TicketsDistinct, PendingOk, HandlersOk, ShutdownOk, Carried, Fits, Misjudged;
    assert RequestOk(s.requests[r], ChannelOf(s.channels, r), s.counter, s.swaps);
  }

  /**
   What `Close` releases, exactly. When a `Close` call is about to swap, a waiting request with
   nothing buffered can ever end without its context if and only if an earlier swap has closed
   its channel or it is the entry under its own ID; an unfinished one, if and only if it is.
   */
  lemma SwapReleasesExactly(s: State, c: nat, r: nat)
    requires Inv(s) && c in s.closers && s.closers[c] == Drained
    requires r in s.requests && s.requests[r].phase == Waiting && Buffered(s, r).None?
    ensures CanEnd(s, r) <==> ClosedFor(s, r) || IsEntry(s.pending, InvokeId(s.requests[r].ticket), r)
    ensures Unfinished(s.requests[r], s.swaps) ==> !ClosedFor(s, r)
  {
    WaiterHasChannel(s, r);
    NoHandlersAtSwap(s, c);
    assert Holding(s.requests[r].phase);
    hide Inv, CanEnd, InvokeId, Holding;
    if ClosedFor(s, r) {
      ClosedCanEnd(s, r);
    } else if IsEntry(s.pending, InvokeId(s.requests[r].ticket), r) {
      EntryCanEnd(s, c, r);
    } else {
      NoOtherEntry(s, r);
      StrandedCannotEnd(s, r);
    }
    if Unfinished(s.requests[r], s.swaps) { UnfinishedIsOpen(s, r); }
  }

  lemma WaiterHasChannel(s: State, r: nat)
    requires Inv(s) && r in s.requests && s.requests[r].phase == Waiting
    ensures r in s.channels
  {
    hide TicketsDistinct, PendingOk, HandlersOk, ShutdownOk, Carried, Fits, Misjudged;
    assert RequestOk(s.requests[r], ChannelOf(s.channels, r), s.counter, s.swaps);
  }

  // ---- Calls that come too late for the swap -------------------------------

  /** Disconnected, with no `Close` call, receiver or handler at work. */
  predicate Quiet(s: State) {
    s.connection == Disconnected && s.closers == map[] && !Running(s.receiver) && s.handlers == map[]
  }

  /** So the last `Close` call leaves the client. */
  lemma LastCloseLeavesQuiet(s: State, c: nat)
    requires Inv(s) && s.closers.Keys == {c} && s.closers[c] == Swapped
    ensures CloserEnabled(s, c) && Quiet(ApplyCloser(s, c)) && ApplyCloser(s, c).transportClosed
  {
    hide RequestsOk, TicketsDistinct, PendingOk, HandlersOk, CloseAndSwap;
    assert s.closers - {c} == map[];
    assert |s.handlers| == 0;
  }

  /** Nothing but `Connect` disturbs the quiet. In particular a further `Close` returns at once. */
  lemma StaysQuiet(s: State, step: Step)
    requires Quiet(s) && Enabled(s, step) && step != OfConnect(ConnectBegin)
    ensures Quiet(Apply(s, step)) && (step.CloseCall? ==> Apply(s, step) == s)
    ensures step.OfRequest? || step.NewRequest? || step.CovTicket? || step.CloseCall?
  {
    hide NextRequest, NextChannels, NextPending, NextMetrics, CanStep;
  }

  lemma LateStep(s: State, step: Step, r: nat)
    requires Quiet(s) && WaitsEmpty(s, r) && Enabled(s, step)
    requires step != OfConnect(ConnectBegin) && step != OfRequest(r, Cancel)
    ensures WaitsEmpty(Apply(s, step), r)
  {
    StaysQuiet(s, step);
    hide Quiet, RequestEnabled, ApplyRequest;
    if step.OfRequest? { RequestLeavesWaiting(s, step.r, step.request, r); }
  }

  /**
   In every run: from a quiet moment on, a call that waits with nothing buffered, such as one
   that registered after the swap, goes on waiting until its context ends or the client is
   connected again. `Close` calls made meanwhile change nothing.
   */
  lemma {:induction false} LateCallWaits(states: seq<State>, steps: seq<Step>, i: nat, j: nat, r: nat)
    requires IsTrace(states, steps) && i <= j < |states| && Quiet(states[i]) && WaitsEmpty(states[i], r)
    requires forall k :: i <= k < j ==> steps[k] != OfRequest(r, Cancel) && steps[k] != OfConnect(ConnectBegin)
    ensures Quiet(states[j]) && WaitsEmpty(states[j], r)
    ensures forall k :: i <= k < j && steps[k].CloseCall? ==> states[k + 1] == states[k]
    decreases j - i
  {
    hide Enabled, Apply, Quiet, WaitsEmpty;
    if i < j {
      LateCallWaits(states, steps, i, j - 1, r);
      StaysQuiet(states[j - 1], steps[j - 1]);
      LateStep(states[j - 1], steps[j - 1], r);
    }
  }

  /** A `Connect` call that succeeds. */
  lemma Connects(s: State) returns (steps: seq<Step>)
    requires s.connection == Disconnected && s.closers == map[]
    ensures Leads(s, steps, s.(connection := Connected, receiver := Polling, cancelled := false))
    ensures forall x :: x in steps ==> x.OfConnect?
  {
    hide ApplyRequest, ApplyReceiver, ApplyHandler, ApplyCloser, RequestEnabled, ReceiverEnabled, HandlerEnabled,
      CloserEnabled;
    var t := s.(connection := Opening);
    var u := t.(connection := Starting, receiver := Polling, cancelled := false);
    var v := u.(connection := Connected);
    StepLeads(s, OfConnect(ConnectBegin), t);
    StepLeads(t, OfConnect(ConnectSpawn), u);
    StepLeads(u, OfConnect(ConnectEnd), v);
    hide Leads, Enabled, Apply;
    LeadsOn(s, [OfConnect(ConnectBegin)], t, [OfConnect(ConnectSpawn)], u);
    steps := [OfConnect(ConnectBegin)] + [OfConnect(ConnectSpawn)];
    LeadsOn(s, steps, u, [OfConnect(ConnectEnd)], v);
    steps := steps + [OfConnect(ConnectEnd)];
  }

  /** Connecting again and closing brings such a client to a swap. */
  lemma ReconnectAndClose(s: State) returns (steps: seq<Step>, s': State)
    requires Quiet(s) && s.waitGroup == 0
    ensures Leads(s, steps, s') && forall x :: x in steps ==> !x.OfRequest?
    ensures s' == s.(receiver := Exited, cancelled := true, closers := map[0 := Drained])
  {
    var t := s.(connection := Connected, receiver := Polling, cancelled := false);
    var u := t.(closers := map[0 := Loaded]);
    StepLeads(t, CloseCall(0), u);
    hide Leads, Enabled, Apply;
    var connects := Connects(s);
    var closes;
    closes, s' := CloseDrains(u);
    LeadsOn(s, connects, t, [CloseCall(0)], u);
    LeadsOn(s, connects + [CloseCall(0)], u, closes, s');
    steps := connects + [CloseCall(0)] + closes;
  }

  /** One step of the only `Close` call, before its swap. */
  lemma CloseAdvances(s: State, step: CloseStep)
    requires s.closers == map[0 := step] && step != Drained && step != Swapped && CloserEnabled(s, 0)
    ensures Leads(s, [OfCloser(0)],
                  s.(connection := if step == Loaded then Disconnected else s.connection,
                     cancelled := s.cancelled || step == Stored,
                     closers := map[0 := NextClose(step)]))
  {
    assert s.closers[0 := NextClose(step)] == map[0 := NextClose(step)];
    hide Leads, CloseAndSwap;
    StepLeads(s, OfCloser(0), ApplyCloser(s, 0));
  }

  /** It stores the state and cancels the receiver, */
  lemma CloseStops(s: State)
    requires s.closers == map[0 := Loaded]
    ensures Leads(s, [OfCloser(0), OfCloser(0)],
                  s.(connection := Disconnected, cancelled := true, closers := map[0 := Stopped]))
  {
    var t := s.(connection := Disconnected, closers := map[0 := Stored]);
    CloseAdvances(s, Loaded);
    CloseAdvances(t, Stored);
    hide Leads;
    LeadsOn(s, [OfCloser(0)], t, [OfCloser(0)], t.(cancelled := true, closers := map[0 := Stopped]));
    assert [OfCloser(0)] + [OfCloser(0)] == [OfCloser(0), OfCloser(0)];
  }

  /** and waits for the receiver and for handlers, of which there are none. */
  lemma CloseWaits(s: State)
    requires s.closers == map[0 := Stopped] && s.receiver == Exited && s.waitGroup == 0
    ensures Leads(s, [OfCloser(0), OfCloser(0)], s.(closers := map[0 := Drained]))
  {
    var t := s.(closers := map[0 := ReceiverGone]);
    CloseAdvances(s, Stopped);
    CloseAdvances(t, ReceiverGone);
    hide Leads;
    LeadsOn(s, [OfCloser(0)], t, [OfCloser(0)], t.(closers := map[0 := Drained]));
    assert [OfCloser(0)] + [OfCloser(0)] == [OfCloser(0), OfCloser(0)];
  }

  lemma CloseDrains(s: State) returns (steps: seq<Step>, s': State)
    requires s.closers == map[0 := Loaded] && s.receiver == Polling && s.waitGroup == 0
    ensures Leads(s, steps, s') && forall x :: x in steps ==> x == OfCloser(0) || x == OfReceiver(Poll)
    ensures s' == s.(connection := Disconnected, receiver := Exited, cancelled := true, closers := map[0 := Drained])
  {
    var t := s.(connection := Disconnected, cancelled := true, closers := map[0 := Stopped]);
    var u := t.(receiver := Exited);
    StepLeads(t, OfReceiver(Poll), u);
    hide Leads, Enabled, Apply;
    CloseStops(s);
    CloseWaits(u);
    s' := u.(closers := map[0 := Drained]);
    var stop := [OfCloser(0), OfCloser(0)];
    LeadsOn(s, stop, t, [OfReceiver(Poll)], u);
    LeadsOn(s, stop + [OfReceiver(Poll)], u, stop, s');
    steps := stop + [OfReceiver(Poll)] + stop;
  }

  /**
   What can still end such a call: from a quiet state a waiting request with nothing buffered can
   ever end without its context, by connecting again and closing, if and only if its channel is
   closed already or it is the entry under its own ID.
   */
  lemma QuietReleasesExactly(s: State, r: nat)
    requires Inv(s) && Quiet(s)
    requires r in s.requests && s.requests[r].phase == Waiting && Buffered(s, r).None?
    ensures CanEnd(s, r) <==> ClosedFor(s, r) || IsEntry(s.pending, InvokeId(s.requests[r].ticket), r)
  {
    WaiterHasChannel(s, r);
    QuietIsIdle(s);
    assert Holding(s.requests[r].phase);
    hide Inv, CanEnd, InvokeId, Holding, Leads;
    if ClosedFor(s, r) {
      ClosedCanEnd(s, r);
    } else if IsEntry(s.pending, InvokeId(s.requests[r].ticket), r) {
      var steps, t := ReconnectAndClose(s);
      LeadsKeepsInv(s, steps, t);
      EntryCanEnd(t, 0, r);
      EndsLater(s, steps, t, r);
    } else {
      NoOtherEntry(s, r);
      StrandedCannotEnd(s, r);
    }
  }

  lemma QuietIsIdle(s: State)
    requires Inv(s) && Quiet(s)
    ensures s.waitGroup == 0
  {
    hide RequestsOk, TicketsDistinct, PendingOk, HandlersOk;
  }
}
