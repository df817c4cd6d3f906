/**
 After `Close`: the transport is closed for good, so a client that connects again looks connected
 but sends nothing and hears nothing.
 */
module EngineReconnect {
  import opened Bytes
  import opened Packets
  import opened Engine
  import opened EngineSafety
  import opened EngineShutdown
  import opened EngineWindow
  import opened EngineCounters

  // ---- Nothing is sent -----------------------------------------------------

  /** The call has not sent its request, and if it has ended, it ended with an error of its own. */
  predicate Unsent(p: Phase) {
    match p
    case Waiting => false
    case Cancelled => false
    case Received(_) => false
    case Recorded(_) => false
    case Leaving(o) => o == SendError
    case Unwinding(o) => o == SendError
    case Done(o) => o == SendError
    case UnconfirmedSent(ok) => !ok
    case UnconfirmedDone(ok) => !ok
    case _ => true
  }

  lemma UnsentMoves(p: Phase, step: RequestStep, connected: bool, buffer: Option<Apdu>)
    requires CanStep(p, step) && Unsent(p) && step != Send(true) && step != SendUnconfirmed(true)
    ensures Unsent(NextPhase(p, step, connected, buffer))
  {
  }

  predicate UnsentIn(s: State, r: nat) {
    r in s.requests ==> Unsent(s.requests[r].phase)
  }

  lemma RequestStaysUnsent(s: State, x: nat, step: RequestStep, r: nat)
    requires RequestEnabled(s, x, step) && s.transportClosed && UnsentIn(s, r)
    ensures ApplyRequest(s, x, step).transportClosed && UnsentIn(ApplyRequest(s, x, step), r)
  {
    if x == r { UnsentMoves(s.requests[r].phase, step, s.connection == Connected, Buffered(s, r)); }
    StepShape(s, x, step);
    hide NextRequest, NextChannels, NextPending, NextMetrics, NextPhase, Unsent;
  }

  lemma CloserLeavesClosed(s: State, c: nat)
    requires CloserEnabled(s, c) && s.transportClosed
    ensures ApplyCloser(s, c).transportClosed
  {
    hide InPending, WouldCloseTwice;
  }

  lemma StepStaysUnsent(s: State, step: Step, r: nat)
    requires Enabled(s, step) && s.transportClosed && UnsentIn(s, r)
    ensures Apply(s, step).transportClosed && UnsentIn(Apply(s, step), r)
  {
    hide RequestEnabled, ApplyRequest, HandlerEnabled, ApplyHandler, CloserEnabled, ApplyCloser, ReceiverEnabled,
      ApplyReceiver;
    match step
    case OfRequest(x, y) => RequestStaysUnsent(s, x, y, r);
    case OfReceiver(x) =>
      ReceiverLeavesRequests(s, x);
      ReceiverLeavesTransport(s, x);
    case OfHandler(h, x) =>
      HandlerLeavesRequests(s, h, x);
      HandlerLeavesTransport(s, h, x);
    case OfCloser(c) =>
      CloserLeavesRequests(s, c);
      CloserLeavesClosed(s, c);
    case _ =>
  }

  lemma ReceiverLeavesTransport(s: State, step: ReceiverStep)
    requires ReceiverEnabled(s, step)
    ensures ApplyReceiver(s, step).transportClosed == s.transportClosed
  {
    hide NextReceiver;
  }

  lemma HandlerLeavesTransport(s: State, h: nat, step: HandlerStep)
    requires HandlerEnabled(s, h, step)
    ensures ApplyHandler(s, h, step).transportClosed == s.transportClosed
  {
    hide NextHandlers, Offer;
  }

  /**
   In every run, after any `Close` call has closed the transport, no call that had not sent by
   then ever sends: confirmed or not, whatever connects in between, it fails as not connected or
   with a send error.
   */
  lemma {:induction false} NothingSentAfterClose(states: seq<State>, steps: seq<Step>, i: nat, j: nat, r: nat)
    requires IsTrace(states, steps) && i <= j < |states| && states[i].transportClosed && UnsentIn(states[i], r)
    ensures states[j].transportClosed && UnsentIn(states[j], r)
    decreases j - i
  {
    hide Enabled, Apply, UnsentIn;
    if i < j {
      NothingSentAfterClose(states, steps, i, j - 1, r);
      StepStaysUnsent(states[j - 1], steps[j - 1], r);
    }
  }

  // ---- Nothing is heard ----------------------------------------------------

  /** A closed transport leaves no packet and no reply on its way to a channel. */
  predicate Deaf(s: State) {
    s.transportClosed ==> s.handlers == map[] && !s.receiver.Got? && !s.receiver.Added?
  }

  lemma LastStepDeafens(s: State, c: nat)
    requires Inv(s) && Deaf(s) && CloserEnabled(s, c)
    ensures Deaf(ApplyCloser(s, c))
  {
    hide RequestsOk, TicketsDistinct, PendingOk, HandlersOk, InPending, WouldCloseTwice;
    if s.closers[c] == Swapped {
      assert |s.handlers| == 0;
    }
  }

  lemma RequestLeavesHandlers(s: State, r: nat, step: RequestStep)
    requires RequestEnabled(s, r, step)
    ensures var s' := ApplyRequest(s, r, step);
            s'.transportClosed == s.transportClosed && s'.handlers == s.handlers && s'.receiver == s.receiver
  {
    hide NextRequest, NextChannels, NextPending, NextMetrics, CanStep;
  }

  lemma StepKeepsDeaf(s: State, step: Step)
    requires Inv(s) && Deaf(s) && Enabled(s, step)
    ensures Deaf(Apply(s, step))
  {
    hide Inv, RequestEnabled, ApplyRequest, CloserEnabled, ApplyCloser;
    match step
    case OfRequest(r, x) => RequestLeavesHandlers(s, r, x);
    case OfHandler(h, x) => HandlerLeavesTransport(s, h, x);
    case OfCloser(c) => LastStepDeafens(s, c);
    case _ =>
  }

  lemma {:induction false} RunIsDeaf(states: seq<State>, steps: seq<Step>, i: nat)
    requires IsRun(states, steps) && i < |states|
    ensures Deaf(states[i])
  {
    hide Inv, Enabled, Apply;
    if i > 0 {
      RunIsDeaf(states, steps, i - 1);
      hide Deaf;
      InitialInv();
      TraceKeepsInv(states, steps, i - 1);
      StepKeepsDeaf(states[i - 1], steps[i - 1]);
    }
  }

  /** The request has taken no reply and has none to take. */
  predicate Unheard(s: State, r: nat) {
    (r in s.requests ==> s.requests[r].got == []) && Buffered(s, r).None?
  }

  lemma RequestStaysUnheard(s: State, x: nat, step: RequestStep, r: nat)
    requires RequestEnabled(s, x, step) && Unheard(s, r)
    ensures Unheard(ApplyRequest(s, x, step), r)
  {
    hide NextPhase, NextPending, NextMetrics, CanStep;
  }

  lemma CloserStaysUnheard(s: State, c: nat, r: nat)
    requires CloserEnabled(s, c) && Unheard(s, r)
    ensures Unheard(ApplyCloser(s, c), r)
  {
    hide InPending, WouldCloseTwice;
  }

  lemma StepStaysUnheard(s: State, step: Step, r: nat)
    requires Enabled(s, step) && Deaf(s) && s.transportClosed && Unheard(s, r)
    ensures Unheard(Apply(s, step), r)
  {
    hide RequestEnabled, ApplyRequest, CloserEnabled, ApplyCloser;
    match step
    case OfRequest(x, y) => RequestStaysUnheard(s, x, y, r);
    case OfCloser(c) => CloserStaysUnheard(s, c, r);
    case _ =>
  }

  /**
   Nor does a call that had sent but heard nothing by then ever take a reply: in every run, once
   the transport is closed, a request whose channel is empty gets nothing but its closing.
   */
  lemma {:induction false} NothingHeardAfterClose(states: seq<State>, steps: seq<Step>, i: nat, j: nat, r: nat)
    requires IsRun(states, steps) && i <= j < |states| && states[i].transportClosed && Unheard(states[i], r)
    ensures states[j].transportClosed && Unheard(states[j], r)
    decreases j - i
  {
    hide Enabled, Apply, Unheard, Deaf;
    if i < j {
      NothingHeardAfterClose(states, steps, i, j - 1, r);
      RunIsDeaf(states, steps, j - 1);
      StepStaysUnheard(states[j - 1], steps[j - 1], r);
      TransportStaysClosed(states[j - 1], steps[j - 1]);
    }
  }

  lemma TransportStaysClosed(s: State, step: Step)
    requires Enabled(s, step) && s.transportClosed
    ensures Apply(s, step).transportClosed
  {
    hide RequestEnabled, ApplyRequest, HandlerEnabled, ApplyHandler, CloserEnabled, ApplyCloser, ReceiverEnabled,
      ApplyReceiver;
    match step
    case OfRequest(r, x) => RequestLeavesHandlers(s, r, x);
    case OfReceiver(x) => ReceiverLeavesTransport(s, x);
    case OfHandler(h, x) => HandlerLeavesTransport(s, h, x);
    case OfCloser(c) => CloserLeavesClosed(s, c);
    case _ =>
  }
}
