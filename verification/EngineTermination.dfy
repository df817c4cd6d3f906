/**
 Why `Close` ends: once it has cancelled the receiver, every step of the receiver, of a handler
 and of any `Close` call uses up work of which nothing that happens adds any more, and until the
 call has ended one such step is always possible.
 */
module EngineTermination {
  import opened Bytes
  import opened Packets
  import opened Maps
  import opened Engine
  import opened EngineSafety
  import opened EngineShutdown

  // ---- Work ----------------------------------------------------------------

  /** A packet that is read still costs its handler three steps. */
  function ReceiverWork(r: Receiver): (n: nat) {
    match r
    case Reading => 7
    case Got(_) => 6
    case Added(_) => 5
    case Polling => 1
    case _ => 0
  }

  function HandlerWork(h: Handler): (n: nat) {
    HandlerRank(h) + 1
  }

  function CloserWork(c: CloseStep): (n: nat) {
    CloseRank(c) + 1
  }

  ghost function Work(s: State): (n: nat) {
    ReceiverWork(s.receiver) + Weight(s.handlers, HandlerWork) + Weight(s.closers, CloserWork)
  }

  predicate IsShutdownStep(step: Step) {
    step.OfReceiver? || step.OfHandler? || step.OfCloser?
  }

  function ShutdownSteps(steps: seq<Step>): (n: nat) {
    if steps == [] then 0
    else ShutdownSteps(steps[..|steps| - 1]) + if IsShutdownStep(steps[|steps| - 1]) then 1 else 0
  }

  /** The `Close` call has cancelled the receiver. */
  predicate Stopping(s: State, c: nat) {
    c in s.closers && s.closers[c] != Loaded && s.closers[c] != Stored
  }

  // ---- Steps ---------------------------------------------------------------

  /** Where a `Close` call has cancelled: the client is disconnected and the receiver can only wind down. */
  lemma StoppingState(s: State, c: nat)
    requires Inv(s) && Stopping(s, c)
    ensures s.connection == Disconnected && (s.cancelled || !Running(s.receiver))
  {
    hide RequestsOk, TicketsDistinct, PendingOk, HandlersOk;
  }

  lemma ReceiverUsesWork(s: State, step: ReceiverStep)
    requires ReceiverEnabled(s, step) && s.cancelled
    ensures Work(ApplyReceiver(s, step)) < Work(s)
  {
    if step.SpawnHandler? {
      WeightUpdate(s.handlers, HandlerWork, step.h, Decoding(s.receiver.data));
    }
  }

  lemma HandlerUsesWork(s: State, h: nat, step: HandlerStep)
    requires HandlerEnabled(s, h, step)
    ensures Work(ApplyHandler(s, h, step)) < Work(s)
  {
    hide AfterLookup, Offer;
    match step
    case Lookup =>
      LookupAdvances(s, s.handlers[h].data);
      WeightUpdate(s.handlers, HandlerWork, h, AfterLookup(s, s.handlers[h].data));
    case Deliver => WeightUpdate(s.handlers, HandlerWork, h, Returning);
    case Return => WeightRemove(s.handlers, HandlerWork, h);
  }

  lemma SwapLeavesWork(s: State)
    ensures Work(CloseAndSwap(s)) == Work(s) && CloseAndSwap(s).closers == s.closers
  {
    hide InPending, WouldCloseTwice;
  }

  lemma CloserUsesWork(s: State, c: nat)
    requires CloserEnabled(s, c)
    ensures Work(ApplyCloser(s, c)) < Work(s)
  {
    hide CloseAndSwap;
    var step := s.closers[c];
    if step == Swapped {
      WeightRemove(s.closers, CloserWork, c);
    } else {
      WeightUpdate(s.closers, CloserWork, c, NextClose(step));
      if step == Drained {
        SwapLeavesWork(s.(closers := s.closers[c := Swapped]));
      }
    }
  }

  lemma RequestLeavesWork(s: State, r: nat, step: RequestStep)
    requires RequestEnabled(s, r, step)
    ensures Work(ApplyRequest(s, r, step)) == Work(s) && ApplyRequest(s, r, step).closers == s.closers
  {
    hide NextRequest, NextChannels, NextPending, NextMetrics, CanStep;
  }

  /** Under a stopping `Close` call a shutdown step uses up work, and no step at all adds any. */
  lemma StepUsesWork(s: State, step: Step, c: nat)
    requires Inv(s) && Stopping(s, c) && Enabled(s, step)
    ensures Work(Apply(s, step)) + (if IsShutdownStep(step) then 1 else 0) <= Work(s)
  {
    StoppingState(s, c);
    hide Inv, Work, RequestEnabled, ApplyRequest, ReceiverEnabled, ApplyReceiver, HandlerEnabled, ApplyHandler,
      CloserEnabled, ApplyCloser;
    match step
    case OfRequest(r, x) => RequestLeavesWork(s, r, x);
    case OfReceiver(x) =>
      RunningReceiver(s, x);
      ReceiverUsesWork(s, x);
    case OfHandler(h, x) => HandlerUsesWork(s, h, x);
    case OfCloser(x) => CloserUsesWork(s, x);
    case _ => OtherLeavesWork(s, step, c);
  }

  lemma RunningReceiver(s: State, step: ReceiverStep)
    requires ReceiverEnabled(s, step)
    ensures Running(s.receiver)
  {
  }

  /** New calls add no work, a further `Close` returns at once, and `Connect` is not called. */
  lemma OtherLeavesWork(s: State, step: Step, c: nat)
    requires Stopping(s, c) && s.connection == Disconnected && Enabled(s, step)
    requires step.NewRequest? || step.CovTicket? || step.OfConnect? || step.CloseCall?
    ensures Work(Apply(s, step)) == Work(s) && Apply(s, step).closers == s.closers
  {
    hide RequestEnabled, ApplyRequest, ReceiverEnabled, ApplyReceiver, HandlerEnabled, ApplyHandler, CloserEnabled,
      ApplyCloser;
  }

  lemma StaysStopping(s: State, step: Step, c: nat)
    requires Inv(s) && Stopping(s, c) && Enabled(s, step)
    ensures c in Apply(s, step).closers ==> Stopping(Apply(s, step), c)
  {
    StoppingState(s, c);
    hide Inv, RequestEnabled, ApplyRequest, ReceiverEnabled, ApplyReceiver, HandlerEnabled, ApplyHandler,
      CloserEnabled, ApplyCloser, Work;
    match step
    case OfRequest(r, x) => RequestLeavesWork(s, r, x);
    case OfReceiver(x) => ReceiverLeavesClosers(s, x);
    case OfHandler(h, x) => HandlerLeavesClosers(s, h, x);
    case OfCloser(x) => CloserProgress(s, x);
    case _ => OtherLeavesWork(s, step, c);
  }

  lemma ReceiverLeavesClosers(s: State, step: ReceiverStep)
    requires ReceiverEnabled(s, step)
    ensures ApplyReceiver(s, step).closers == s.closers
  {
    hide NextReceiver;
  }

  lemma HandlerLeavesClosers(s: State, h: nat, step: HandlerStep)
    requires HandlerEnabled(s, h, step)
    ensures ApplyHandler(s, h, step).closers == s.closers
  {
    hide NextHandlers, Offer;
  }

  // ---- Runs ----------------------------------------------------------------

  /**
   In every run: from the moment a `Close` call has cancelled the receiver until it ends, there
   are no more receiver, handler and `Close` steps than the work found at that moment, whatever
   else happens in between.
   */
  lemma {:induction false} ShutdownIsBounded(states: seq<State>, steps: seq<Step>, i: nat, j: nat, c: nat)
    requires IsRun(states, steps) && i <= j < |states| && Stopping(states[i], c)
    requires forall k :: i <= k < j ==> c in states[k].closers
    ensures ShutdownSteps(steps[i..j]) + Work(states[j]) <= Work(states[i])
    ensures c in states[j].closers ==> Stopping(states[j], c)
    decreases j - i
  {
    hide Inv, Enabled, Apply, Work, Stopping;
    if i < j {
      ShutdownIsBounded(states, steps, i, j - 1, c);
      InitialInv();
      TraceKeepsInv(states, steps, j - 1);
      StepUsesWork(states[j - 1], steps[j - 1], c);
      StaysStopping(states[j - 1], steps[j - 1], c);
      assert steps[i..j][..j - 1 - i] == steps[i..j - 1];
    }
  }

  /** And until it has ended, such a step is possible: in every state of every run nothing it waits for is stuck. */
  lemma ShutdownNeverStuck(states: seq<State>, steps: seq<Step>, i: nat, c: nat)
    requires IsRun(states, steps) && i < |states| && c in states[i].closers
    ensures exists x :: IsShutdownStep(x) && Enabled(states[i], x)
  {
    InitialInv();
    TraceKeepsInv(states, steps, i);
    NeverStuck(states[i], c);
  }

  lemma NeverStuck(s: State, c: nat)
    requires Inv(s) && c in s.closers
    ensures exists x :: IsShutdownStep(x) && Enabled(s, x)
  {
    if CloserEnabled(s, c) {
      assert Enabled(s, OfCloser(c));
    } else if s.closers[c] == Stopped {
      hide Inv;
      var h := FreshHandler(s.handlers.Keys);
      ReceiverMoves(s, h);
      assert Enabled(s, OfReceiver(NextReceive(s.receiver, h)));
    } else {
      HandlersLeft(s, c);
      hide Inv;
      var h :| h in s.handlers;
      HandlerNeverBlocks(s, h);
      assert Enabled(s, OfHandler(h, NextOf(s.handlers[h])));
    }
  }

  lemma HandlersLeft(s: State, c: nat)
    requires Inv(s) && c in s.closers && s.closers[c] == ReceiverGone && s.waitGroup > 0
    ensures s.handlers != map[]
  {
    hide RequestsOk, TicketsDistinct, PendingOk, HandlersOk;
  }
}
