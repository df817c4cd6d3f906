/**
 How far the 8-bit invoke IDs carry. As long as no request is still in flight when the
 counter is 256 past its ticket, the pending map is exact; one allocation later it need not be.
 In general it stays exact precisely until two registered requests meet under one ID.
 */
module EngineWindow {
  import opened Bytes
  import opened Packets
  import opened Engine
  import opened EngineSafety

  /** Between allocation of the ID and the deferred delete. */
  predicate InFlight(p: Phase) {
    HasTicket(p) && !p.Done?
  }

  ghost predicate Windowed(s: State) {
    forall r :: r in s.requests && InFlight(s.requests[r].phase) ==> s.counter - s.requests[r].ticket < 256
  }

  /** Registered since the last swap and not yet unregistered. */
  predicate Unfinished(q: Request, swaps: nat) {
    Holding(q.phase) && q.epoch == swaps
  }

  /** Every unfinished request is registered under its own ID. */
  ghost predicate Covers(pending: map<byte, nat>, requests: map<nat, Request>, swaps: nat) {
    forall r :: r in requests && Unfinished(requests[r], swaps) ==> IsEntry(pending, InvokeId(requests[r].ticket), r)
  }

  predicate IsEntry(pending: map<byte, nat>, id: byte, r: nat) {
    id in pending && pending[id] == r
  }

  ghost predicate Complete(s: State) {
    Covers(s.pending, s.requests, s.swaps)
  }

  /** The pending map is precisely the map from own ID to own channel of the unfinished requests. */
  ghost predicate Exact(s: State) {
    forall k, r :: k in s.pending && s.pending[k] == r
                   <==> r in s.requests && Unfinished(s.requests[r], s.swaps) && InvokeId(s.requests[r].ticket) == k
  }

  lemma CompleteIsExact(s: State)
    requires Inv(s)
    ensures Complete(s) <==> Exact(s)
  {
    hide RequestsOk, TicketsDistinct, HandlersOk, ShutdownOk, InvokeId, Holding;
    forall k | k in s.pending ensures EntryOk(k, s.pending[k], s.requests, s.channels, s.swaps) {}
    if Exact(s) {
      forall r | r in s.requests && Unfinished(s.requests[r], s.swaps)
        ensures IsEntry(s.pending, InvokeId(s.requests[r].ticket), r)
      {
        var id := InvokeId(s.requests[r].ticket);
        assert r in s.requests && Unfinished(s.requests[r], s.swaps) && InvokeId(s.requests[r].ticket) == id;
      }
    }
  }

  /** The 32-bit counter wraps at a multiple of 256, so only the ticket modulo 256 matters. */
  lemma InvokeIdIsLowByte(t: nat)
    ensures InvokeId(t) == t % 0x100
  {
    var q, m := t / 0x1_0000_0000, t % 0x1_0000_0000;
    assert t == m + 0x100 * (q * 0x100_0000);
    AddMultiple(m, q * 0x100_0000);
  }

  lemma AddMultiple(m: nat, k: nat)
    ensures (m + 0x100 * k) % 0x100 == m % 0x100
  {
  }

  /** Inside the window an invoke ID names at most one request in flight. */
  lemma IdsAreUnique(s: State, q: nat, r: nat)
    requires Inv(s) && Windowed(s) && q in s.requests && r in s.requests
    requires InFlight(s.requests[q].phase) && InFlight(s.requests[r].phase)
    requires InvokeId(s.requests[q].ticket) == InvokeId(s.requests[r].ticket)
    ensures q == r
  {
    hide RequestsOk, PendingOk, HandlersOk, ShutdownOk, HasTicket, InvokeId;
    TicketsBelowCounter(s);
    var a, b := s.requests[q].ticket, s.requests[r].ticket;
    InvokeIdIsLowByte(a);
    InvokeIdIsLowByte(b);
    assert a == b;
  }

  // ---- Steps ---------------------------------------------------------------

  /** Phase changes that neither start nor end the holding of an ID. */
  lemma PlainMoveHolds(p: Phase, step: RequestStep, connected: bool, buffer: Option<Apdu>)
    requires CanStep(p, step) && step != Register && step != Delete
    ensures Holding(NextPhase(p, step, connected, buffer)) <==> Holding(p)
  {
  }

  /** Replacing one request by another of the same ticket that is unfinished only if it was. */
  lemma CoversTouch(pending: map<byte, nat>, requests: map<nat, Request>, swaps: nat, r: nat, q: Request)
    requires Covers(pending, requests, swaps) && r in requests
    requires Unfinished(q, swaps) ==> Unfinished(requests[r], swaps) && q.ticket == requests[r].ticket
    ensures Covers(pending, requests[r := q], swaps)
  {
    hide Unfinished, InvokeId;
  }

  /** Another request, registered and not yet unregistered, holds the same ID. */
  ghost predicate Shared(s: State, r: nat) {
    r in s.requests
    && exists x :: x in s.requests && x != r && Unfinished(s.requests[x], s.swaps)
                   && InvokeId(s.requests[x].ticket) == InvokeId(s.requests[r].ticket)
  }

  /** The step writes or deletes an entry that belongs to another request. */
  ghost predicate Collides(s: State, step: Step) {
    step.OfRequest? && (step.request == Register || step.request == Delete) && Shared(s, step.r)
  }

  lemma RequestStepComplete(s: State, r: nat, step: RequestStep)
    requires Inv(s) && Complete(s) && RequestEnabled(s, r, step)
    ensures Complete(ApplyRequest(s, r, step)) <==> !Collides(s, OfRequest(r, step))
  {
    hide Inv, Covers, InvokeId, Shared;
    if step == Register {
      RegisterComplete(s, r);
    } else if step == Delete {
      DeleteComplete(s, r);
    } else {
      PlainMoveHolds(s.requests[r].phase, step, s.connection == Connected, Buffered(s, r));
      OtherStepShape(s, r, step);
      hide ApplyRequest, Holding, NextPhase, CanStep;
      CoversTouch(s.pending, s.requests, s.swaps, r, ApplyRequest(s, r, step).requests[r]);
    }
  }

  lemma OtherStepShape(s: State, r: nat, step: RequestStep)
    requires RequestEnabled(s, r, step) && step != Register && step != Delete
    ensures var s' := ApplyRequest(s, r, step);
            && s'.pending == s.pending && s'.swaps == s.swaps
            && r in s'.requests && s'.requests == s.requests[r := s'.requests[r]]
            && s'.requests[r].phase == NextPhase(s.requests[r].phase, step, s.connection == Connected, Buffered(s, r))
            && s'.requests[r].epoch == s.requests[r].epoch
            && (Holding(s.requests[r].phase) ==> s'.requests[r].ticket == s.requests[r].ticket)
  {
    hide NextMetrics, InvokeId;
  }

  lemma CoversRegistered(pending: map<byte, nat>, requests: map<nat, Request>, swaps: nat, r: nat, q: Request)
    requires Covers(pending, requests, swaps) && r in requests
    requires forall x :: x in requests && x != r && Unfinished(requests[x], swaps)
                         ==> InvokeId(requests[x].ticket) != InvokeId(q.ticket)
    ensures Covers(pending[InvokeId(q.ticket) := r], requests[r := q], swaps)
  {
    hide Unfinished, InvokeId;
  }

  lemma NotCovered(pending: map<byte, nat>, requests: map<nat, Request>, swaps: nat, x: nat)
    requires x in requests && Unfinished(requests[x], swaps) && !IsEntry(pending, InvokeId(requests[x].ticket), x)
    ensures !Covers(pending, requests, swaps)
  {
    hide Unfinished, InvokeId;
  }

  /** Registration is harmless exactly when it overwrites no entry of another unfinished request. */
  lemma RegisterComplete(s: State, r: nat)
    requires Complete(s) && RequestEnabled(s, r, Register)
    ensures Complete(ApplyRequest(s, r, Register)) <==> !Shared(s, r)
  {
    RegisterShape(s, r);
    hide Covers, ApplyRequest, InvokeId, Unfinished, RequestEnabled;
    var s' := ApplyRequest(s, r, Register);
    if Shared(s, r) {
      var x :| x in s.requests && x != r && Unfinished(s.requests[x], s.swaps)
               && InvokeId(s.requests[x].ticket) == InvokeId(s.requests[r].ticket);
      NotCovered(s'.pending, s'.requests, s'.swaps, x);
    } else {
      CoversRegistered(s.pending, s.requests, s.swaps, r, s'.requests[r]);
    }
  }

  lemma HoldingInFlight(p: Phase)
    requires Holding(p)
    ensures InFlight(p)
  {
  }

  /** Inside the window a deferred delete finds its own entry or none. */
  lemma DeleteFindsOwn(s: State, r: nat)
    requires Inv(s) && Windowed(s) && RequestEnabled(s, r, Delete)
    ensures var id := InvokeId(s.requests[r].ticket); id in s.pending ==> s.pending[id] == r
  {
    var id := InvokeId(s.requests[r].ticket);
    assert InFlight(s.requests[r].phase);
    if id in s.pending {
      assert EntryOk(id, s.pending[id], s.requests, s.channels, s.swaps);
      hide Inv, Windowed, InvokeId;
      HoldingInFlight(s.requests[s.pending[id]].phase);
      IdsAreUnique(s, s.pending[id], r);
    }
  }

  lemma CoversDeleted(pending: map<byte, nat>, requests: map<nat, Request>, swaps: nat, r: nat, id: byte)
    requires Covers(pending, requests, swaps)
    requires id in pending ==> pending[id] == r
    requires r in requests ==> !Unfinished(requests[r], swaps)
    ensures Covers(pending - {id}, requests, swaps)
  {
    hide Unfinished, InvokeId;
  }

  /** A deferred delete is harmless exactly when it removes no entry of another unfinished request. */
  lemma DeleteComplete(s: State, r: nat)
    requires Inv(s) && Complete(s) && RequestEnabled(s, r, Delete)
    ensures Complete(ApplyRequest(s, r, Delete)) <==> !Shared(s, r)
  {
    hide Inv, Covers, ApplyRequest, InvokeId, RequestEnabled, Unfinished;
    DeleteShape(s, r);
    EntryIsUnfinished(s, InvokeId(s.requests[r].ticket));
    var s' := ApplyRequest(s, r, Delete);
    var q := s'.requests[r];
    DoneIsFinished(q, s.swaps);
    if Shared(s, r) {
      var x :| x in s.requests && x != r && Unfinished(s.requests[x], s.swaps)
               && InvokeId(s.requests[x].ticket) == InvokeId(s.requests[r].ticket);
      NotCovered(s'.pending, s'.requests, s'.swaps, x);
    } else {
      CoversTouch(s.pending, s.requests, s.swaps, r, q);
      CoversDeleted(s.pending, s.requests[r := q], s.swaps, r, InvokeId(q.ticket));
    }
  }

  lemma DoneIsFinished(q: Request, swaps: nat)
    ensures q.phase.Done? ==> !Unfinished(q, swaps)
  {
  }

  /** Whatever stands under an ID is unfinished and holds that ID. */
  lemma EntryIsUnfinished(s: State, id: byte)
    requires Inv(s)
    ensures id in s.pending ==>
              var x := s.pending[id];
              x in s.requests && Unfinished(s.requests[x], s.swaps) && InvokeId(s.requests[x].ticket) == id
  {
    hide RequestsOk, TicketsDistinct, HandlersOk, ShutdownOk, InvokeId, Holding;
    if id in s.pending {
      assert EntryOk(id, s.pending[id], s.requests, s.channels, s.swaps);
    }
  }

  lemma CloserComplete(s: State, c: nat)
    requires Inv(s) && Complete(s) && CloserEnabled(s, c)
    ensures Complete(ApplyCloser(s, c))
  {
    hide TicketsDistinct, PendingOk, HandlersOk, ShutdownOk, HasTicket, Carried, Misjudged, Holding, InvokeId,
      InPending, WouldCloseTwice;
    if s.closers[c] == Drained {
      forall r | r in s.requests ensures s.requests[r].epoch <= s.swaps {
        assert RequestOk(s.requests[r], ChannelOf(s.channels, r), s.counter, s.swaps);
      }
    }
  }

  /** The fields the pending map is judged by. */
  predicate SameRequests(s: State, s': State) {
    s'.requests == s.requests && s'.pending == s.pending && s'.swaps == s.swaps
  }

  lemma HandlerLeavesRequests(s: State, h: nat, step: HandlerStep)
    requires HandlerEnabled(s, h, step)
    ensures SameRequests(s, ApplyHandler(s, h, step))
  {
    hide AfterLookup;
  }

  lemma ReceiverLeavesRequests(s: State, step: ReceiverStep)
    requires ReceiverEnabled(s, step)
    ensures SameRequests(s, ApplyReceiver(s, step))
  {
  }

  /** From an exact map, a step leads to an exact map exactly when it does not collide. */
  lemma StepKeepsComplete(s: State, step: Step)
    requires Inv(s) && Complete(s) && Enabled(s, step)
    ensures Complete(Apply(s, step)) <==> !Collides(s, step)
  {
    hide Inv, Covers, RequestEnabled, ApplyRequest, CloserEnabled, ApplyCloser, HandlerEnabled, ApplyHandler,
      ReceiverEnabled, ApplyReceiver, ConnectEnabled, ApplyConnect, Shared;
    match step
    case NewRequest(r, confirmed) => NewRequestComplete(s, r, confirmed);
    case CovTicket =>
    case OfRequest(r, x) => RequestStepComplete(s, r, x);
    case OfReceiver(x) => ReceiverLeavesRequests(s, x);
    case OfHandler(h, x) => HandlerLeavesRequests(s, h, x);
    case OfConnect(x) => ConnectLeavesRequests(s, x);
    case CloseCall(c) =>
    case OfCloser(c) => CloserComplete(s, c);
  }

  lemma WritesEntryInFlight(s: State, r: nat, step: RequestStep)
    requires RequestEnabled(s, r, step) && (step == Register || step == Delete)
    ensures r in s.requests && InFlight(s.requests[r].phase)
  {
  }

  lemma SharedLeavesWindow(s: State, r: nat)
    requires Inv(s) && r in s.requests && InFlight(s.requests[r].phase) && Shared(s, r)
    ensures !Windowed(s)
  {
    hide Inv, Windowed, InvokeId, InFlight, Holding;
    var x :| x in s.requests && x != r && Unfinished(s.requests[x], s.swaps)
             && InvokeId(s.requests[x].ticket) == InvokeId(s.requests[r].ticket);
    HoldingInFlight(s.requests[x].phase);
    if Windowed(s) { IdsAreUnique(s, x, r); }
  }

  /** Inside the window no step collides. */
  lemma WindowedIsSafe(s: State, step: Step)
    requires Inv(s) && Windowed(s) && Enabled(s, step)
    ensures !Collides(s, step)
  {
    hide Inv, Windowed, Shared, RequestEnabled, InFlight;
    if Collides(s, step) {
      WritesEntryInFlight(s, step.r, step.request);
      SharedLeavesWindow(s, step.r);
    }
  }

  lemma ConnectLeavesRequests(s: State, step: ConnectStep)
    requires ConnectEnabled(s, step)
    ensures SameRequests(s, ApplyConnect(s, step))
  {
  }

  lemma NewRequestComplete(s: State, r: nat, confirmed: bool)
    requires Complete(s) && r !in s.requests
    ensures Complete(Apply(s, NewRequest(r, confirmed)))
  {
    hide InvokeId;
    assert !Holding(Apply(s, NewRequest(r, confirmed)).requests[r].phase);
    hide Holding;
  }

  // ---- Runs ----------------------------------------------------------------

  lemma {:induction false} CompleteUpTo(states: seq<State>, steps: seq<Step>, n: nat)
    requires IsRun(states, steps) && n < |states|
    ensures (forall i :: 0 <= i <= n ==> Complete(states[i]))
            <==> (forall i :: 0 <= i < n ==> !Collides(states[i], steps[i]))
  {
    hide Inv, Apply, Enabled, Collides;
    if n > 0 {
      CompleteUpTo(states, steps, n - 1);
      InitialInv();
      TraceKeepsInv(states, steps, n - 1);
      if Complete(states[n - 1]) {
        StepKeepsComplete(states[n - 1], steps[n - 1]);
      }
      assert states[n] == Apply(states[n - 1], steps[n - 1]);
    }
  }

  /**
   When the pending map is exact. Along every run it is, up to any point, exactly as long as no
   request has registered or unregistered under an ID that another registered request holds.
   */
  lemma ExactUnlessCollision(states: seq<State>, steps: seq<Step>, n: nat)
    requires IsRun(states, steps) && n < |states|
    ensures (forall i :: 0 <= i <= n ==> Exact(states[i]))
            <==> (forall i :: 0 <= i < n ==> !Collides(states[i], steps[i]))
  {
    hide Inv, IsTrace, Exact, Complete, Collides;
    CompleteUpTo(states, steps, n);
    forall i | 0 <= i <= n ensures Exact(states[i]) <==> Complete(states[i]) {
      InitialInv();
      TraceKeepsInv(states, steps, i);
      CompleteIsExact(states[i]);
    }
  }

  /**
   In every run that has stayed inside the window, the pending map is exact, and a request's
   deferred delete never removes the entry of another.
   */
  lemma WindowTheorem(states: seq<State>, steps: seq<Step>, i: nat)
    requires IsRun(states, steps) && i < |states|
    requires forall j :: 0 <= j < i ==> Windowed(states[j])
    ensures Exact(states[i])
    ensures forall r :: Windowed(states[i]) && RequestEnabled(states[i], r, Delete)
              && InvokeId(states[i].requests[r].ticket) in states[i].pending
              ==> states[i].pending[InvokeId(states[i].requests[r].ticket)] == r
  {
    hide Inv, Exact, Enabled, Apply, Windowed, InvokeId, CanStep, Collides;
    InitialInv();
    forall j | 0 <= j < i ensures !Collides(states[j], steps[j]) {
      TraceKeepsInv(states, steps, j);
      WindowedIsSafe(states[j], steps[j]);
    }
    ExactUnlessCollision(states, steps, i);
    TraceKeepsInv(states, steps, i);
    forall r | Windowed(states[i]) && RequestEnabled(states[i], r, Delete)
               && InvokeId(states[i].requests[r].ticket) in states[i].pending
      ensures states[i].pending[InvokeId(states[i].requests[r].ticket)] == r
    {
      DeleteFindsOwn(states[i], r);
    }
  }

  // ---- The bound is sharp --------------------------------------------------

  lemma AllocateThenRegister(s: State, q: nat)
    requires RequestEnabled(s, q, Allocate)
    ensures !Holding(s.requests[q].phase)
    ensures var s1 := ApplyRequest(s, q, Allocate);
            && s1.counter == s.counter + 1 && s1.swaps == s.swaps
            && (forall x :: x in s.requests && x != q ==> x in s1.requests && s1.requests[x] == s.requests[x])
            && RequestEnabled(s1, q, Register) && s1.requests[q].ticket == s.counter + 1
  {
    AllocateShape(s, q);
  }

  lemma RegisterEntry(s: State, q: nat)
    requires RequestEnabled(s, q, Register)
    ensures var s' := ApplyRequest(s, q, Register);
            && s'.swaps == s.swaps && IsEntry(s'.pending, InvokeId(s.requests[q].ticket), q)
            && (forall x :: x in s.requests && x != q ==> x in s'.requests && s'.requests[x] == s.requests[x])
            && q in s'.requests && Unfinished(s'.requests[q], s'.swaps)
            && s'.requests[q].ticket == s.requests[q].ticket
  {
    RegisterShape(s, q);
  }

  /**
   From any state in which a registered request is 255 behind the counter, the next request
   takes its entry away: one allocation more than the window allows is one too many.
   */
  lemma WindowIsSharp(s: State, r: nat, q: nat) returns (s1: State, s2: State)
    requires r in s.requests && Unfinished(s.requests[r], s.swaps)
    requires RequestEnabled(s, q, Allocate) && s.counter == s.requests[r].ticket + 255
    ensures q != r && s1 == ApplyRequest(s, q, Allocate)
    ensures r in s1.requests && s1.counter - s1.requests[r].ticket == 256 && !Windowed(s1)
    ensures RequestEnabled(s1, q, Register) && s2 == ApplyRequest(s1, q, Register)
    ensures r in s2.requests && Unfinished(s2.requests[r], s2.swaps)
    ensures q in s2.requests && Unfinished(s2.requests[q], s2.swaps)
    ensures InvokeId(s2.requests[r].ticket) in s2.pending && s2.pending[InvokeId(s2.requests[r].ticket)] == q
    ensures !Exact(s2)
  {
    hide ApplyRequest, RequestEnabled, InvokeId, Holding, InFlight, Exact;
    HoldingInFlight(s.requests[r].phase);
    AllocateThenRegister(s, q);
    s1 := ApplyRequest(s, q, Allocate);
    RegisterEntry(s1, q);
    s2 := ApplyRequest(s1, q, Register);
    InvokeIdIsLowByte(s2.requests[r].ticket);
    InvokeIdIsLowByte(s2.requests[q].ticket);
    NotExact(s2, r, InvokeId(s2.requests[r].ticket));
  }

  lemma NotExact(s: State, r: nat, id: byte)
    requires r in s.requests && Unfinished(s.requests[r], s.swaps) && InvokeId(s.requests[r].ticket) == id
    requires id !in s.pending || s.pending[id] != r
    ensures !Exact(s)
  {
    hide InvokeId, Unfinished;
  }

  /** And the overtaken request's deferred delete then unregisters the other one. */
  lemma OvertakenDeleteUnregisters(s: State, r: nat, q: nat)
    requires RequestEnabled(s, r, Delete) && q != r && q in s.requests && Unfinished(s.requests[q], s.swaps)
    requires InvokeId(s.requests[r].ticket) == InvokeId(s.requests[q].ticket)
    ensures var s' := ApplyRequest(s, r, Delete);
            && Unfinished(s'.requests[q], s'.swaps)
            && InvokeId(s'.requests[q].ticket) !in s'.pending
  {
    DeleteShape(s, r);
  }
}
