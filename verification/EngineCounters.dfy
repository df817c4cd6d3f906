/**
 The request counters of metrics.go as client.go drives them: they balance in every state
 of every run (as long as nobody calls Reset).
 */
module EngineCounters {
  import opened Bytes
  import opened Packets
  import opened Engine
  import opened EngineSafety

  // ---- Counting requests ---------------------------------------------------

  ghost function Selected(requests: map<nat, Request>, p: Phase -> bool): (rs: set<nat>) {
    set r | r in requests && p(requests[r].phase)
  }

  ghost function Count(requests: map<nat, Request>, p: Phase -> bool): (n: nat) {
    |Selected(requests, p)|
  }

  function Bit(b: bool): (n: nat) {
    if b then 1 else 0
  }

  lemma SelectedUpdate(requests: map<nat, Request>, p: Phase -> bool, r: nat, q: Request)
    ensures Selected(requests[r := q], p) == Selected(requests, p) - {r} + (if p(q.phase) then {r} else {})
  {
    var m := requests[r := q];
    forall x ensures x in Selected(m, p) <==> x in Selected(requests, p) - {r} + (if p(q.phase) then {r} else {}) {
      if x != r { assert x in m <==> x in requests; }
    }
  }

  /** Changing one request changes a count by that request alone. */
  lemma CountUpdate(requests: map<nat, Request>, p: Phase -> bool, r: nat, q: Request)
    ensures Count(requests[r := q], p)
            == Count(requests, p) - Bit(r in requests && p(requests[r].phase)) + Bit(p(q.phase))
  {
    SelectedUpdate(requests, p, r, q);
    var chosen := Selected(requests, p);
    assert r in chosen <==> r in requests && p(requests[r].phase);
    hide Selected;
    assert |chosen - {r}| == |chosen| - Bit(r in chosen);
  }

  lemma CountNone(requests: map<nat, Request>, p: Phase -> bool)
    requires forall r :: r in requests ==> !p(requests[r].phase)
    ensures Count(requests, p) == 0
  {
    assert Selected(requests, p) == {};
  }

  // ---- Which requests a counter is about -----------------------------------

  /** Counted as sent, and not yet counted under any outcome. */
  predicate Awaiting(p: Phase) {
    p.Counted? || p.Sending? || p.SendFailed? || p.Waiting? || p.Cancelled? || p.Received? || p.Recorded?
    || p.UnconfirmedCounted? || p.UnconfirmedSent?
  }

  /** Ended by a closed channel; the source keeps no counter for these. */
  predicate EndedByClose(p: Phase) {
    Judged(p) && p.outcome.ConnectionClosed?
  }

  /** Between the increment and the deferred decrement of ActiveRequests. */
  predicate Bracketed(p: Phase) {
    p.Sending? || p.SendFailed? || p.Waiting? || p.Cancelled? || p.Received? || p.Recorded? || p.Leaving?
  }

  /** Got something, a reply or the closing, from its channel and recorded the latency. */
  predicate Timed(p: Phase) {
    p.Recorded?
    || (Judged(p) && !p.outcome.TimedOut? && !p.outcome.SendError?)
  }

  /** Booked as succeeded: acknowledged, or unconfirmed and sent. */
  predicate Succeeded(p: Phase) {
    (Judged(p) && p.outcome.Answered?) || (p.UnconfirmedDone? && p.ok)
  }

  /** Booked as failed: an Error, Reject or Abort came back, or the request could not be sent. */
  predicate Failed(p: Phase) {
    (Judged(p) && (p.outcome.Refused? || p.outcome.SendError?)) || (p.UnconfirmedDone? && !p.ok)
  }

  /** Booked as timed out: the context ended first. */
  predicate ContextEnded(p: Phase) {
    Judged(p) && p.outcome.TimedOut?
  }

  /** Every counter is the number of the requests it is about, and together they account for all that were sent. */
  ghost predicate Balanced(m: Metrics, requests: map<nat, Request>) {
    && m.succeeded == Count(requests, Succeeded)
    && m.failed == Count(requests, Failed)
    && m.timedOut == Count(requests, ContextEnded)
    && m.sent == m.succeeded + m.failed + m.timedOut + Count(requests, EndedByClose) + Count(requests, Awaiting)
    && m.active == Count(requests, Bracketed)
    && m.latencies == Count(requests, Timed)
  }

  // ---- Steps ---------------------------------------------------------------

  /** The counters move exactly with the phase of one request: each outcome, */
  predicate OutcomesMove(m: Metrics, m': Metrics, p: Phase, p': Phase) {
    && m'.succeeded - m.succeeded == Bit(Succeeded(p')) - Bit(Succeeded(p))
    && m'.failed - m.failed == Bit(Failed(p')) - Bit(Failed(p))
    && m'.timedOut - m.timedOut == Bit(ContextEnded(p')) - Bit(ContextEnded(p))
  }

  /** what was sent, */
  predicate SentMoves(m: Metrics, m': Metrics, p: Phase, p': Phase) {
    m'.sent - m.sent
    == (m'.succeeded - m.succeeded) + (m'.failed - m.failed) + (m'.timedOut - m.timedOut)
       + (Bit(EndedByClose(p')) - Bit(EndedByClose(p))) + (Bit(Awaiting(p')) - Bit(Awaiting(p)))
  }

  /** and what is in progress or was timed. */
  predicate GaugesMove(m: Metrics, m': Metrics, p: Phase, p': Phase) {
    && m'.active - m.active == Bit(Bracketed(p')) - Bit(Bracketed(p))
    && m'.latencies - m.latencies == Bit(Timed(p')) - Bit(Timed(p))
  }

  predicate MovesWith(m: Metrics, m': Metrics, p: Phase, p': Phase) {
    OutcomesMove(m, m', p, p') && SentMoves(m, m', p, p') && GaugesMove(m, m', p, p')
  }

  lemma OutcomeBalance(m: Metrics, p: Phase, step: RequestStep, connected: bool, buffer: Option<Apdu>)
    requires CanStep(p, step)
    ensures OutcomesMove(m, NextMetrics(m, p, step), p, NextPhase(p, step, connected, buffer))
  {
    hide NextPhase, NextMetrics, CanStep, Succeeded, Failed, ContextEnded;
    SuccessBalance(m, p, step, connected, buffer);
    FailureBalance(m, p, step, connected, buffer);
    TimeoutBalance(m, p, step, connected, buffer);
  }

  lemma SuccessBalance(m: Metrics, p: Phase, step: RequestStep, connected: bool, buffer: Option<Apdu>)
    requires CanStep(p, step)
    ensures NextMetrics(m, p, step).succeeded - m.succeeded
            == Bit(Succeeded(NextPhase(p, step, connected, buffer))) - Bit(Succeeded(p))
  {
  }

  lemma FailureBalance(m: Metrics, p: Phase, step: RequestStep, connected: bool, buffer: Option<Apdu>)
    requires CanStep(p, step)
    ensures NextMetrics(m, p, step).failed - m.failed
            == Bit(Failed(NextPhase(p, step, connected, buffer))) - Bit(Failed(p))
  {
  }

  lemma TimeoutBalance(m: Metrics, p: Phase, step: RequestStep, connected: bool, buffer: Option<Apdu>)
    requires CanStep(p, step)
    ensures NextMetrics(m, p, step).timedOut - m.timedOut
            == Bit(ContextEnded(NextPhase(p, step, connected, buffer))) - Bit(ContextEnded(p))
  {
  }

  lemma SentBalance(m: Metrics, p: Phase, step: RequestStep, connected: bool, buffer: Option<Apdu>)
    requires CanStep(p, step)
    requires step == CountOutcome ==> !Classify(p.reply).Unexpected?
    ensures SentMoves(m, NextMetrics(m, p, step), p, NextPhase(p, step, connected, buffer))
  {
  }

  lemma GaugeBalance(m: Metrics, p: Phase, step: RequestStep, connected: bool, buffer: Option<Apdu>)
    requires CanStep(p, step)
    ensures GaugesMove(m, NextMetrics(m, p, step), p, NextPhase(p, step, connected, buffer))
  {
  }

  /** One step of one request moves each side of each balance by the same amount. */
  lemma PhaseBalance(m: Metrics, p: Phase, step: RequestStep, connected: bool, buffer: Option<Apdu>)
    requires CanStep(p, step)
    requires step == CountOutcome ==> !Classify(p.reply).Unexpected?
    ensures MovesWith(m, NextMetrics(m, p, step), p, NextPhase(p, step, connected, buffer))
  {
    hide OutcomesMove, SentMoves, GaugesMove, NextPhase, NextMetrics, CanStep, Classify;
    OutcomeBalance(m, p, step, connected, buffer);
    SentBalance(m, p, step, connected, buffer);
    GaugeBalance(m, p, step, connected, buffer);
  }

  lemma UpdateBalance(m: Metrics, m': Metrics, requests: map<nat, Request>, r: nat, q: Request)
    requires Balanced(m, requests) && r in requests && MovesWith(m, m', requests[r].phase, q.phase)
    ensures Balanced(m', requests[r := q])
  {
    CountUpdate(requests, Succeeded, r, q);
    CountUpdate(requests, Failed, r, q);
    CountUpdate(requests, ContextEnded, r, q);
    CountUpdate(requests, EndedByClose, r, q);
    CountUpdate(requests, Awaiting, r, q);
    CountUpdate(requests, Bracketed, r, q);
    CountUpdate(requests, Timed, r, q);
    hide Count, Succeeded, Failed, ContextEnded, EndedByClose, Awaiting, Bracketed, Timed;
  }

  lemma RequestStepBalance(s: State, r: nat, step: RequestStep)
    requires Inv(s) && Balanced(s.metrics, s.requests) && RequestEnabled(s, r, step)
    ensures Balanced(ApplyRequest(s, r, step).metrics, ApplyRequest(s, r, step).requests)
  {
    if step == CountOutcome { RepliesAreExpected(s, r); }
    var p := s.requests[r].phase;
    PhaseBalance(s.metrics, p, step, s.connection == Connected, Buffered(s, r));
    StepShape(s, r, step);
    hide Inv, Balanced, ApplyRequest, NextPhase, NextMetrics, MovesWith, CanStep;
    var s' := ApplyRequest(s, r, step);
    UpdateBalance(s.metrics, s'.metrics, s.requests, r, s'.requests[r]);
  }

  /** Only reply types reach a request, so the outcome switch always counts what it gets. */
  lemma RepliesAreExpected(s: State, r: nat)
    requires Inv(s) && RequestEnabled(s, r, CountOutcome)
    ensures !Classify(s.requests[r].phase.reply).Unexpected?
  {
    hide TicketsDistinct, PendingOk, HandlersOk, ShutdownOk, InvokeId;
    var q := s.requests[r];
    assert RequestOk(q, ChannelOf(s.channels, r), s.counter, s.swaps);
    if q.phase.reply.Some? { assert q.phase.reply.value in q.got; }
  }

  lemma StepShape(s: State, r: nat, step: RequestStep)
    requires RequestEnabled(s, r, step)
    ensures var s' := ApplyRequest(s, r, step);
            && r in s'.requests && s'.requests == s.requests[r := s'.requests[r]]
            && s'.requests[r].phase == NextPhase(s.requests[r].phase, step, s.connection == Connected, Buffered(s, r))
            && s'.metrics == NextMetrics(s.metrics, s.requests[r].phase, step)
  {
    hide InvokeId, NextPhase, NextMetrics, CanStep;
  }

  lemma NewRequestBalance(s: State, r: nat, confirmed: bool)
    requires Balanced(s.metrics, s.requests) && r !in s.requests
    ensures var s' := Apply(s, NewRequest(r, confirmed)); Balanced(s'.metrics, s'.requests)
  {
    var q := Request(if confirmed then Called else UnconfirmedCalled, 0, 0, []);
    CountUpdate(s.requests, Succeeded, r, q);
    CountUpdate(s.requests, Failed, r, q);
    CountUpdate(s.requests, ContextEnded, r, q);
    CountUpdate(s.requests, EndedByClose, r, q);
    CountUpdate(s.requests, Awaiting, r, q);
    CountUpdate(s.requests, Bracketed, r, q);
    CountUpdate(s.requests, Timed, r, q);
    hide Count;
  }

  predicate SameBooks(s: State, s': State) {
    s'.requests == s.requests && s'.metrics == s.metrics
  }

  lemma HandlerLeavesBooks(s: State, h: nat, step: HandlerStep)
    requires HandlerEnabled(s, h, step)
    ensures SameBooks(s, ApplyHandler(s, h, step))
  {
    hide AfterLookup;
  }

  lemma ReceiverLeavesBooks(s: State, step: ReceiverStep)
    requires ReceiverEnabled(s, step)
    ensures SameBooks(s, ApplyReceiver(s, step))
  {
  }

  lemma ConnectLeavesBooks(s: State, step: ConnectStep)
    requires ConnectEnabled(s, step)
    ensures SameBooks(s, ApplyConnect(s, step))
  {
  }

  lemma SwapLeavesBooks(s: State)
    ensures SameBooks(s, CloseAndSwap(s))
  {
    hide InPending, WouldCloseTwice;
  }

  lemma CloserLeavesBooks(s: State, c: nat)
    requires CloserEnabled(s, c)
    ensures SameBooks(s, ApplyCloser(s, c))
  {
    hide CloseAndSwap;
    if s.closers[c] == Drained {
      SwapLeavesBooks(s.(closers := s.closers[c := Swapped]));
    }
  }

  lemma StepKeepsBalance(s: State, step: Step)
    requires Inv(s) && Balanced(s.metrics, s.requests) && Enabled(s, step)
    ensures Balanced(Apply(s, step).metrics, Apply(s, step).requests)
  {
    hide Inv, Balanced, RequestEnabled, ApplyRequest, HandlerEnabled, ApplyHandler, ReceiverEnabled, ApplyReceiver,
      ConnectEnabled, ApplyConnect, CloserEnabled, ApplyCloser;
    match step
    case NewRequest(r, confirmed) => NewRequestBalance(s, r, confirmed);
    case CovTicket =>
    case OfRequest(r, x) => RequestStepBalance(s, r, x);
    case OfReceiver(x) => ReceiverLeavesBooks(s, x);
    case OfHandler(h, x) => HandlerLeavesBooks(s, h, x);
    case OfConnect(x) => ConnectLeavesBooks(s, x);
    case CloseCall(c) =>
    case OfCloser(c) => CloserLeavesBooks(s, c);
  }

  // ---- Runs ----------------------------------------------------------------

  /**
   In every state of every run each outcome counter is the number of requests with that outcome;
   requests sent are those that succeeded, failed, timed out, met a closed channel or are still
   awaiting an outcome; the gauge equals the confirmed requests inside their bracket; the latency
   count equals the channel outcomes.
   */
  lemma {:induction false} CountersBalance(states: seq<State>, steps: seq<Step>, i: nat)
    requires IsRun(states, steps) && i < |states|
    ensures Balanced(states[i].metrics, states[i].requests)
  {
    hide Inv, Enabled, Apply;
    if i == 0 {
      CountNone(INITIAL.requests, Succeeded);
      CountNone(INITIAL.requests, Failed);
      CountNone(INITIAL.requests, ContextEnded);
      CountNone(INITIAL.requests, EndedByClose);
      CountNone(INITIAL.requests, Awaiting);
      CountNone(INITIAL.requests, Bracketed);
      CountNone(INITIAL.requests, Timed);
    } else {
      CountersBalance(states, steps, i - 1);
      InitialInv();
      TraceKeepsInv(states, steps, i - 1);
      hide Balanced;
      StepKeepsBalance(states[i - 1], steps[i - 1]);
    }
  }

  /** When nothing is in progress the outcome counters account for every request sent. */
  lemma QuiescentBalance(states: seq<State>, steps: seq<Step>, i: nat)
    requires IsRun(states, steps) && i < |states|
    requires forall r :: r in states[i].requests ==>
               var p := states[i].requests[r].phase; p.Done? || p.UnconfirmedDone? || p.NotConnected?
    ensures var m := states[i].metrics;
            && m.sent == m.succeeded + m.failed + m.timedOut + Count(states[i].requests, EndedByClose)
            && m.active == 0
  {
    CountersBalance(states, steps, i);
    CountNone(states[i].requests, Awaiting);
    CountNone(states[i].requests, Bracketed);
  }
}
