/**
 What a call tells its caller: the outcome is the one that its reply calls for, and the program
 counter of a call says exactly what has happened to it.
 */
module EngineOutcomes {
  import opened Bytes
  import opened Packets
  import opened Engine
  import opened EngineSafety
  import opened EngineShutdown
  import opened EngineWindow
  import opened EngineCounters

  // ---- Replies and outcomes ------------------------------------------------

  /**
   In every run: a call ends answered exactly with the one acknowledgement it took, refused exactly
   with the one Error, Reject or Abort it took, and otherwise it took nothing.
   */
  lemma OutcomesAreTrue(states: seq<State>, steps: seq<Step>, i: nat, r: nat)
    requires IsRun(states, steps) && i < |states| && r in states[i].requests && Judged(states[i].requests[r].phase)
    ensures var q := states[i].requests[r];
            match q.phase.outcome
            case Answered(a) => IsAck(a) && q.got == [a]
            case Refused(a) => IsRefusal(a) && q.got == [a]
            case Unexpected(_) => false
            case _ => q.got == []
    ensures var q := states[i].requests[r];
            forall a :: a in q.got ==>
              (if IsRefusal(a) then q.phase.outcome == Refused(a) else IsAck(a) && q.phase.outcome == Answered(a))
  {
    InitialInv();
    hide IsTrace, TicketsDistinct, ShutdownOk, PendingOk, HandlersOk, Fits;
    TraceKeepsInv(states, steps, i);
    var s := states[i];
    assert RequestOk(s.requests[r], ChannelOf(s.channels, r), s.counter, s.swaps);
  }

  // ---- What has happened to a call -----------------------------------------

  /** Events in the life of a call. */
  datatype Mark =
    | FoundConnected
    | FoundUnconnected
    | WasSent
    | CouldNotSend
    | ContextDone
    | ChannelClosed
    | Took(reply: Apdu)
    | UnconfirmedWent(sent: bool)

  /** The step is such an event, by what it finds of the connection and of the call's channel. */
  predicate Marks(m: Mark, x: RequestStep, connected: bool, channel: Option<Channel>) {
    match m
    case FoundConnected => (x == CheckState || x == CheckUnconfirmed) && connected
    case FoundUnconnected => (x == CheckState || x == CheckUnconfirmed) && !connected
    case WasSent => x == Send(true)
    case CouldNotSend => x == Send(false)
    case ContextDone => x == Cancel
    case ChannelClosed => x == Receive && channel == Some(Channel(None, true))
    case Took(a) => x == Receive && channel.Some? && channel.value.buffer == Some(a)
    case UnconfirmedWent(ok) => x == SendUnconfirmed(ok)
  }

  /** The program counter of a call that has met such an event. */
  predicate Shows(m: Mark, p: Phase) {
    match m
    case FoundConnected => !p.Called? && !p.UnconfirmedCalled? && !p.NotConnected?
    case FoundUnconnected => p.NotConnected?
    case WasSent =>
      p.Waiting? || p.Cancelled? || p.Received? || p.Recorded? || (Judged(p) && !p.outcome.SendError?)
    case CouldNotSend => p.SendFailed? || (Judged(p) && p.outcome.SendError?)
    case ContextDone => p.Cancelled? || (Judged(p) && p.outcome.TimedOut?)
    case ChannelClosed =>
      ((p.Received? || p.Recorded?) && p.reply.None?) || (Judged(p) && p.outcome.ConnectionClosed?)
    case Took(a) =>
      ((p.Received? || p.Recorded?) && p.reply == Some(a)) || (Judged(p) && OutcomeReply(p.outcome) == Some(a))
    case UnconfirmedWent(ok) => (p.UnconfirmedSent? || p.UnconfirmedDone?) && p.ok == ok
  }

  function BufferOf(channel: Option<Channel>): (b: Option<Apdu>) {
    if channel.Some? then channel.value.buffer else None
  }

  /** One step of the call shows what it did and forgets nothing. */
  lemma EarlyShows(m: Mark, p: Phase, x: RequestStep, connected: bool, channel: Option<Channel>)
    requires CanStep(p, x) && (m.FoundConnected? || m.FoundUnconnected? || m.WasSent? || m.CouldNotSend?)
    ensures Shows(m, NextPhase(p, x, connected, BufferOf(channel))) <==> Shows(m, p) || Marks(m, x, connected, channel)
  {
  }

  lemma LateShows(m: Mark, p: Phase, x: RequestStep, connected: bool, channel: Option<Channel>)
    requires CanStep(p, x) && (m.ContextDone? || m.UnconfirmedWent?)
    ensures Shows(m, NextPhase(p, x, connected, BufferOf(channel))) <==> Shows(m, p) || Marks(m, x, connected, channel)
  {
  }

  lemma ReceiptShows(m: Mark, p: Phase, x: RequestStep, connected: bool, channel: Option<Channel>)
    requires CanStep(p, x) && (m.ChannelClosed? || m.Took?)
    requires x == Receive ==> channel.Some? && (channel.value.buffer.Some? || channel.value.closed)
    ensures Shows(m, NextPhase(p, x, connected, BufferOf(channel))) <==> Shows(m, p) || Marks(m, x, connected, channel)
  {
  }

  lemma MoveShows(m: Mark, s: State, r: nat, x: RequestStep)
    requires RequestEnabled(s, r, x)
    ensures var p, connected := s.requests[r].phase, s.connection == Connected;
            Shows(m, NextPhase(p, x, connected, Buffered(s, r)))
            <==> Shows(m, p) || Marks(m, x, connected, ChannelOf(s.channels, r))
  {
    hide Shows, NextPhase, Marks, CanStep;
    var p, connected, channel := s.requests[r].phase, s.connection == Connected, ChannelOf(s.channels, r);
    if m.ChannelClosed? || m.Took? {
      ReceiptShows(m, p, x, connected, channel);
    } else if m.ContextDone? || m.UnconfirmedWent? {
      LateShows(m, p, x, connected, channel);
    } else {
      EarlyShows(m, p, x, connected, channel);
    }
  }

  /** Among the first `i` steps one was such an event for request `r`. */
  ghost predicate Happened(m: Mark, states: seq<State>, steps: seq<Step>, i: nat, r: nat)
    requires i <= |steps| && |states| == |steps| + 1
  {
    exists k :: 0 <= k < i && IsEvent(m, states[k], steps[k], r)
  }

  predicate IsEvent(m: Mark, s: State, step: Step, r: nat) {
    step.OfRequest? && step.r == r && Marks(m, step.request, s.connection == Connected, ChannelOf(s.channels, r))
  }

  /** From `s` to `s'` request `r` remembers what it showed, and shows the event if there was one. */
  predicate Remembers(m: Mark, s: State, s': State, event: bool, r: nat) {
    && (r in s.requests ==>
          r in s'.requests && (Shows(m, s'.requests[r].phase) <==> Shows(m, s.requests[r].phase) || event))
    && (r !in s.requests ==> !event && (r in s'.requests ==> !Shows(m, s'.requests[r].phase)))
  }

  lemma SameRequestsRemember(m: Mark, s: State, s': State, r: nat)
    requires s'.requests == s.requests
    ensures Remembers(m, s, s', false, r)
  {
    hide Shows;
  }

  lemma RequestRemembers(m: Mark, s: State, x: nat, y: RequestStep, r: nat)
    requires RequestEnabled(s, x, y)
    ensures Remembers(m, s, ApplyRequest(s, x, y), IsEvent(m, s, OfRequest(x, y), r), r)
  {
    StepShape(s, x, y);
    assert x in s.requests;
    hide ApplyRequest, RequestEnabled, Remembers, Marks;
    var s' := ApplyRequest(s, x, y);
    if x == r {
      MoveShows(m, s, r, y);
      hide Shows, NextPhase;
      OwnRemembers(m, s, s', IsEvent(m, s, OfRequest(x, y), r), r);
    } else {
      OtherRemembers(m, s, s', x, r);
    }
  }

  lemma OwnRemembers(m: Mark, s: State, s': State, event: bool, r: nat)
    requires r in s.requests && r in s'.requests
    requires Shows(m, s'.requests[r].phase) <==> Shows(m, s.requests[r].phase) || event
    ensures Remembers(m, s, s', event, r)
  {
    hide Shows;
  }

  lemma OtherRemembers(m: Mark, s: State, s': State, x: nat, r: nat)
    requires x != r && x in s'.requests && s'.requests == s.requests[x := s'.requests[x]]
    ensures Remembers(m, s, s', false, r)
  {
    hide Shows;
  }

  lemma NewRequestRemembers(m: Mark, s: State, x: nat, confirmed: bool, r: nat)
    requires x !in s.requests
    ensures Remembers(m, s, Apply(s, NewRequest(x, confirmed)), false, r)
  {
    NothingYet(m);
    hide Shows;
  }

  lemma StepShows(m: Mark, s: State, step: Step, r: nat)
    requires Enabled(s, step)
    ensures Remembers(m, s, Apply(s, step), IsEvent(m, s, step, r), r)
  {
    hide Remembers, Marks, RequestEnabled, ApplyRequest, HandlerEnabled, ApplyHandler, CloserEnabled, ApplyCloser,
      ReceiverEnabled, ApplyReceiver;
    match step
    case NewRequest(x, confirmed) => NewRequestRemembers(m, s, x, confirmed, r);
    case OfRequest(x, y) => RequestRemembers(m, s, x, y, r);
    case OfReceiver(x) =>
      ReceiverLeavesRequests(s, x);
      SameRequestsRemember(m, s, Apply(s, step), r);
    case OfHandler(h, x) =>
      HandlerLeavesRequests(s, h, x);
      SameRequestsRemember(m, s, Apply(s, step), r);
    case OfCloser(c) =>
      CloserLeavesRequests(s, c);
      SameRequestsRemember(m, s, Apply(s, step), r);
    case _ => SameRequestsRemember(m, s, Apply(s, step), r);
  }

  lemma NothingYet(m: Mark)
    ensures !Shows(m, Called) && !Shows(m, UnconfirmedCalled)
  {
  }

  /**
   In every run and for every call: its program counter shows an event if and only if the event has
   happened to it. In particular a call is at `NotConnected` exactly if it was checked while the
   client was not connected, ends timed out exactly if its context ended, with a send error exactly
   if the send failed, as closed exactly if it found its channel closed and empty, and with a reply
   exactly if it took that reply.
   */
  lemma {:induction false} PhaseTellsHistory(m: Mark, states: seq<State>, steps: seq<Step>, i: nat, r: nat)
    requires IsRun(states, steps) && i < |states|
    ensures r in states[i].requests ==> (Shows(m, states[i].requests[r].phase) <==> Happened(m, states, steps, i, r))
    ensures r !in states[i].requests ==> !Happened(m, states, steps, i, r)
  {
    hide Enabled, Apply, Shows, IsEvent;
    if i > 0 {
      PhaseTellsHistory(m, states, steps, i - 1, r);
      StepShows(m, states[i - 1], steps[i - 1], r);
      assert Happened(m, states, steps, i, r)
             <==> Happened(m, states, steps, i - 1, r) || IsEvent(m, states[i - 1], steps[i - 1], r);
    }
  }

  // ---- Every call can end --------------------------------------------------

  predicate IsEnded(p: Phase) {
    p.Done? || p.NotConnected? || p.UnconfirmedDone?
  }

  /** What a call does if nothing comes back: a wait is ended by its context. */
  function AloneStep(p: Phase, transportClosed: bool): (x: RequestStep)
    requires !IsEnded(p)
    ensures CanStep(p, x) && x != Receive && (transportClosed ==> x != Send(true) && x != SendUnconfirmed(true))
  {
    if p.Waiting? then Cancel
    else if Holding(p) then OwnStep(p, transportClosed)
    else if p.Called? then CheckState
    else if p.Checked? then Allocate
    else if p.Allocated? then Register
    else if p.UnconfirmedCalled? then CheckUnconfirmed
    else if p.UnconfirmedChecked? then CountUnconfirmed
    else if p.UnconfirmedCounted? then SendUnconfirmed(!transportClosed)
    else FinishUnconfirmed
  }

  /** And how it then ends. */
  function AloneFate(p: Phase, connected: bool, transportClosed: bool): (p': Phase) {
    match p
    case Called => if !connected then NotConnected else if transportClosed then Done(SendError) else Done(TimedOut)
    case UnconfirmedCalled => if connected then UnconfirmedDone(!transportClosed) else NotConnected
    case UnconfirmedChecked => UnconfirmedDone(!transportClosed)
    case UnconfirmedCounted => UnconfirmedDone(!transportClosed)
    case UnconfirmedSent(ok) => UnconfirmedDone(ok)
    case SendFailed => Done(SendError)
    case Waiting => Done(TimedOut)
    case Cancelled => Done(TimedOut)
    case Received(reply) => Done(Verdict(reply))
    case Recorded(reply) => Done(Verdict(reply))
    case Leaving(o) => Done(o)
    case Unwinding(o) => Done(o)
    case _ => if IsEnded(p) then p else if transportClosed then Done(SendError) else Done(TimedOut)
  }

  function AloneRank(p: Phase): (n: nat) {
    match p
    case Called => 12
    case Checked => 11
    case Allocated => 10
    case UnconfirmedCalled => 4
    case UnconfirmedChecked => 3
    case UnconfirmedCounted => 2
    case UnconfirmedSent(_) => 1
    case _ => StepsLeft(p)
  }

  lemma AloneProgress(p: Phase, connected: bool, buffer: Option<Apdu>, transportClosed: bool)
    requires !IsEnded(p)
    ensures var p' := NextPhase(p, AloneStep(p, transportClosed), connected, buffer);
            AloneRank(p') < AloneRank(p)
            && AloneFate(p', connected, transportClosed) == AloneFate(p, connected, transportClosed)
  {
    if Holding(p) {
    } else {
    }
  }

  lemma AloneEnabled(s: State, r: nat)
    requires r in s.requests && !IsEnded(s.requests[r].phase)
    ensures RequestEnabled(s, r, AloneStep(s.requests[r].phase, s.transportClosed))
  {
    hide CanStep;
  }

  lemma AloneLeaves(s: State, r: nat, x: RequestStep)
    requires RequestEnabled(s, r, x)
    ensures ApplyRequest(s, r, x).connection == s.connection
    ensures ApplyRequest(s, r, x).transportClosed == s.transportClosed
  {
    hide NextRequest, NextChannels, NextPending, NextMetrics, CanStep;
  }

  /**
   From every state whatever, every call can end by its own steps and its context, with no reply
   and nobody else moving, and with this outcome: not connected if it is checked while the client
   is not, a send error if the transport is closed before it sends, timed out if it waits.
   */
  lemma {:induction false} CallCanEnd(s: State, r: nat) returns (steps: seq<Step>, s': State)
    requires r in s.requests
    ensures Leads(s, steps, s') && forall x :: x in steps ==> x.OfRequest? && x.r == r
    ensures r in s'.requests && IsEnded(s'.requests[r].phase)
    ensures s'.requests[r].phase == AloneFate(s.requests[r].phase, s.connection == Connected, s.transportClosed)
    decreases AloneRank(s.requests[r].phase)
  {
    var p := s.requests[r].phase;
    if IsEnded(p) {
      steps, s' := [], s;
    } else {
      var x := AloneStep(p, s.transportClosed);
      AloneEnabled(s, r);
      AloneProgress(p, s.connection == Connected, Buffered(s, r), s.transportClosed);
      StepShape(s, r, x);
      AloneLeaves(s, r, x);
      hide ApplyRequest, RequestEnabled, NextPhase, AloneStep, AloneRank, AloneFate, Leads, IsEnded, NextMetrics,
        CanStep;
      var t := ApplyRequest(s, r, x);
      OneStep(s, OfRequest(r, x));
      var rest;
      rest, s' := CallCanEnd(t, r);
      LeadsOn(s, [OfRequest(r, x)], t, rest, s');
      steps := [OfRequest(r, x)] + rest;
    }
  }

  // ---- The first reply is the one that counts ------------------------------

  predicate Holds(s: State, r: nat, a: Apdu) {
    r in s.channels && s.channels[r].buffer == Some(a)
  }

  lemma RequestLeavesBuffer(s: State, x: nat, step: RequestStep, r: nat, a: Apdu)
    requires Inv(s) && RequestEnabled(s, x, step) && Holds(s, r, a) && OfRequest(x, step) != OfRequest(r, Receive)
    ensures Holds(ApplyRequest(s, x, step), r, a)
  {
    if step == Allocate {
      assert RequestOk(s.requests[x], ChannelOf(s.channels, x), s.counter, s.swaps);
      AllocatesOwn(s, x);
    }
    hide Inv, NextRequest, NextMetrics, NextPending, CanStep;
  }

  lemma HandlerLeavesBuffer(s: State, h: nat, step: HandlerStep, r: nat, a: Apdu)
    requires HandlerEnabled(s, h, step) && Holds(s, r, a)
    ensures Holds(ApplyHandler(s, h, step), r, a)
  {
    hide NextHandlers;
  }

  lemma CloserLeavesBuffer(s: State, c: nat, r: nat, a: Apdu)
    requires CloserEnabled(s, c) && Holds(s, r, a)
    ensures Holds(ApplyCloser(s, c), r, a)
  {
    hide InPending, WouldCloseTwice;
  }

  lemma StepLeavesBuffer(s: State, step: Step, r: nat, a: Apdu)
    requires Inv(s) && Enabled(s, step) && Holds(s, r, a) && step != OfRequest(r, Receive)
    ensures Holds(Apply(s, step), r, a)
  {
    hide Inv, RequestEnabled, ApplyRequest, HandlerEnabled, ApplyHandler, CloserEnabled, ApplyCloser;
    match step
    case OfRequest(x, y) => RequestLeavesBuffer(s, x, y, r, a);
    case OfHandler(h, x) => HandlerLeavesBuffer(s, h, x, r, a);
    case OfCloser(c) => CloserLeavesBuffer(s, c, r, a);
    case _ =>
  }

  /** In every run: a buffered reply stays, whatever else arrives and whatever is closed, until its request takes it. */
  lemma {:induction false} BufferedStays(states: seq<State>, steps: seq<Step>, i: nat, j: nat, r: nat, a: Apdu)
    requires IsRun(states, steps) && i <= j < |states| && Holds(states[i], r, a)
    requires forall k :: i <= k < j ==> steps[k] != OfRequest(r, Receive)
    ensures Holds(states[j], r, a)
    decreases j - i
  {
    hide Inv, Enabled, Apply, Holds;
    if i < j {
      BufferedStays(states, steps, i, j - 1, r, a);
      InitialInv();
      TraceKeepsInv(states, steps, j - 1);
      StepLeavesBuffer(states[j - 1], steps[j - 1], r, a);
    }
  }

  // ---- The connection state ------------------------------------------------

  /** Which steps move the connection state, and how: the compare-and-swap and the stores of `Connect` and `Close`. */
  function ConnectionAfter(c: Connection, step: Step, closing: bool): (c': Connection) {
    match step
    case OfConnect(ConnectBegin) => Opening
    case OfConnect(ConnectFail) => Disconnected
    case OfConnect(ConnectSpawn) => Starting
    case OfConnect(ConnectEnd) => Connected
    case OfCloser(_) => if closing then Disconnected else c
    case _ => c
  }

  lemma ConnectionMoves(s: State, step: Step)
    requires Enabled(s, step)
    ensures var closing := step.OfCloser? && step.c in s.closers && s.closers[step.c] == Loaded;
            Apply(s, step).connection == ConnectionAfter(s.connection, step, closing)
    ensures step == OfConnect(ConnectBegin) ==> s.connection == Disconnected
    ensures step == OfConnect(ConnectFail) || step == OfConnect(ConnectSpawn) ==> s.connection == Opening
    ensures step == OfConnect(ConnectEnd) ==> s.connection == Starting
  {
    hide RequestEnabled, ApplyRequest, HandlerEnabled, ApplyHandler, ReceiverEnabled, ApplyReceiver, CloseAndSwap;
    match step
    case OfRequest(r, x) => RequestLeavesConnection(s, r, x);
    case OfHandler(h, x) => HandlerLeavesConnection(s, h, x);
    case OfReceiver(x) => ReceiverLeavesConnection(s, x);
    case OfCloser(c) => SwapLeavesControl(s.(closers := s.closers[c := Swapped]));
    case _ =>
  }

  lemma RequestLeavesConnection(s: State, r: nat, step: RequestStep)
    requires RequestEnabled(s, r, step)
    ensures ApplyRequest(s, r, step).connection == s.connection
  {
    hide NextRequest, NextChannels, NextPending, NextMetrics, CanStep;
  }

  lemma HandlerLeavesConnection(s: State, h: nat, step: HandlerStep)
    requires HandlerEnabled(s, h, step)
    ensures ApplyHandler(s, h, step).connection == s.connection
  {
    hide NextHandlers, Offer;
  }

  lemma ReceiverLeavesConnection(s: State, step: ReceiverStep)
    requires ReceiverEnabled(s, step)
    ensures ApplyReceiver(s, step).connection == s.connection
  {
    hide NextReceiver;
  }
}
