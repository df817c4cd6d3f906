/**
 What every step of the request engine keeps, and safety over every run: no send on a
 closed channel, no channel closed twice, and replies only to the request they name.
 */
module EngineSafety {
  import opened Bytes
  import opened Packets
  import opened Engine
  import opened Maps

  // ---- Phases --------------------------------------------------------------

  /** The request has been given an invoke ID and has made its channel. */
  predicate HasTicket(p: Phase) {
    match p
    case Called => false
    case NotConnected => false
    case Checked => false
    case UnconfirmedCalled => false
    case UnconfirmedChecked => false
    case UnconfirmedCounted => false
    case UnconfirmedSent(_) => false
    case UnconfirmedDone(_) => false
    case _ => true
  }

  /** Between registration and the deferred delete. */
  predicate Holding(p: Phase) {
    HasTicket(p) && !p.Allocated? && !p.Done?
  }

  /** The reply the program counter carries, if any. */
  function Carried(p: Phase): (r: Option<Apdu>) {
    match p
    case Received(reply) => reply
    case Recorded(reply) => reply
    case Leaving(o) => OutcomeReply(o)
    case Unwinding(o) => OutcomeReply(o)
    case Done(o) => OutcomeReply(o)
    case _ => None
  }

  function OutcomeReply(o: Outcome): (r: Option<Apdu>) {
    match o
    case Answered(a) => Some(a)
    case Refused(a) => Some(a)
    case Unexpected(a) => Some(a)
    case _ => None
  }

  /** The call has its outcome. */
  predicate Judged(p: Phase) {
    p.Leaving? || p.Unwinding? || p.Done?
  }

  /** The outcome is not the one that the type of its reply calls for. */
  predicate Misjudged(p: Phase) {
    Judged(p)
    && match p.outcome
       case Answered(a) => a.pduType != SIMPLE_ACK && a.pduType != COMPLEX_ACK
       case Refused(a) => a.pduType != ERROR && a.pduType != REJECT && a.pduType != ABORT
       case Unexpected(_) => true
       case _ => false
  }

  // ---- Invariant -----------------------------------------------------------

  /** A reply that may legitimately sit in the channel of the request holding `ticket`. */
  predicate Fits(a: Apdu, ticket: nat) {
    a.invokeId == InvokeId(ticket) && IsReplyType(a.pduType)
  }

  /** One request, its channel if it has made one, and the shared counters. */
  predicate RequestOk(q: Request, channel: Option<Channel>, counter: nat, swaps: nat) {
    && (HasTicket(q.phase) <==> channel.Some?)
    && (HasTicket(q.phase) ==> 1 <= q.ticket <= counter)
    && (q.phase == Allocated && channel.Some? ==> !channel.value.closed)
    && (channel.Some? && channel.value.closed ==> q.epoch < swaps)
    && q.epoch <= swaps && (!HasTicket(q.phase) ==> q.epoch == 0)
    && q.got == (if Carried(q.phase).Some? then [Carried(q.phase).value] else [])
    && (forall a :: a in q.got ==> Fits(a, q.ticket))
    && (channel.Some? && channel.value.buffer.Some? ==> Fits(channel.value.buffer.value, q.ticket))
    && !Misjudged(q.phase)
  }

  function ChannelOf(channels: map<nat, Channel>, r: nat): (c: Option<Channel>) {
    if r in channels then Some(channels[r]) else None
  }

  ghost predicate RequestsOk(requests: map<nat, Request>, channels: map<nat, Channel>, counter: nat, swaps: nat) {
    && (forall r :: r in requests ==> RequestOk(requests[r], ChannelOf(channels, r), counter, swaps))
    && (forall r :: r in channels ==> r in requests)
  }

  ghost predicate TicketsDistinct(requests: map<nat, Request>) {
    forall q, r :: q in requests && r in requests && q != r
                   && HasTicket(requests[q].phase) && HasTicket(requests[r].phase)
                   ==> requests[q].ticket != requests[r].ticket
  }

  /** A registered channel is open and belongs to an unfinished request that holds its key. */
  predicate EntryOk(k: byte, r: nat, requests: map<nat, Request>, channels: map<nat, Channel>, swaps: nat) {
    && r in channels && !channels[r].closed
    && r in requests && Holding(requests[r].phase)
    && InvokeId(requests[r].ticket) == k
    && requests[r].epoch == swaps
  }

  ghost predicate PendingOk(pending: map<byte, nat>, requests: map<nat, Request>, channels: map<nat, Channel>,
                            swaps: nat)
  {
    forall k :: k in pending ==> EntryOk(k, pending[k], requests, channels, swaps)
  }

  /** The channel a handler is about to send on is open, and the reply in its hand fits it. */
  predicate HandlerOk(h: Handler, requests: map<nat, Request>, channels: map<nat, Channel>) {
    h.Delivering? ==>
      && h.channel in channels && !channels[h.channel].closed
      && h.channel in requests && HasTicket(requests[h.channel].phase)
      && Fits(h.apdu, requests[h.channel].ticket)
  }

  ghost predicate HandlersOk(handlers: map<nat, Handler>, requests: map<nat, Request>, channels: map<nat, Channel>) {
    forall h :: h in handlers ==> HandlerOk(handlers[h], requests, channels)
  }

  predicate Running(r: Receiver) {
    r != NotStarted && r != Exited
  }

  predicate Finishing(c: CloseStep) {
    c == Drained || c == Swapped
  }

  /** The order that `Close` imposes on its own shutdown. */
  ghost predicate ShutdownOk(connection: Connection, receiver: Receiver, cancelled: bool, waitGroup: nat,
                             handlers: nat, closers: map<nat, CloseStep>)
  {
    && waitGroup == handlers + (if receiver.Added? then 1 else 0)
    && (forall c :: c in closers && closers[c] != Loaded ==> connection == Disconnected)
    && (forall c :: c in closers && closers[c] == Stopped ==> cancelled)
    && (forall c :: c in closers && (closers[c] == ReceiverGone || Finishing(closers[c])) ==> !Running(receiver))
    && (forall c :: c in closers && Finishing(closers[c]) ==> waitGroup == 0)
    && (connection == Opening || connection == Starting ==> closers == map[])
    && (connection == Opening ==> !Running(receiver))
    && (connection == Disconnected && Running(receiver) ==>
          exists c :: c in closers && (closers[c] == Stored || closers[c] == Stopped))
  }

  ghost predicate Inv(s: State) {
    && RequestsOk(s.requests, s.channels, s.counter, s.swaps)
    && TicketsDistinct(s.requests)
    && PendingOk(s.pending, s.requests, s.channels, s.swaps)
    && HandlersOk(s.handlers, s.requests, s.channels)
    && ShutdownOk(s.connection, s.receiver, s.cancelled, s.waitGroup, |s.handlers|, s.closers)
    && !s.panicked
  }

  lemma InitialInv()
    ensures Inv(INITIAL)
  {
  }

  // ---- Requests ------------------------------------------------------------

  predicate SameClosed(channels: map<nat, Channel>, channels': map<nat, Channel>) {
    forall x :: x in channels ==> x in channels' && channels'[x].closed == channels[x].closed
  }

  lemma ChannelReplaced(channels: map<nat, Channel>, r: nat, ch: Channel)
    ensures ChannelOf(channels[r := ch], r) == Some(ch)
    ensures forall x :: x != r ==> ChannelOf(channels[r := ch], x) == ChannelOf(channels, x)
    ensures (r in channels ==> ch.closed == channels[r].closed) ==> SameClosed(channels, channels[r := ch])
  {
  }

  /** Entries survive the replacement of a request that goes on holding its ID. */
  lemma PendingTouch(pending: map<byte, nat>, requests: map<nat, Request>, channels: map<nat, Channel>, swaps: nat,
                     r: nat, q: Request, channels': map<nat, Channel>)
    requires PendingOk(pending, requests, channels, swaps) && SameClosed(channels, channels')
    requires (forall k :: k in pending ==> pending[k] != r)
             || (r in requests && q.ticket == requests[r].ticket && q.epoch == requests[r].epoch && Holding(q.phase))
    ensures PendingOk(pending, requests[r := q], channels', swaps)
  {
    hide InvokeId, Holding;
    forall k | k in pending ensures EntryOk(k, pending[k], requests[r := q], channels', swaps) {
      assert EntryOk(k, pending[k], requests, channels, swaps);
    }
  }

  /** So do handlers, whose channel only has to keep its ticket. */
  lemma HandlersTouch(handlers: map<nat, Handler>, requests: map<nat, Request>, channels: map<nat, Channel>,
                      r: nat, q: Request, channels': map<nat, Channel>)
    requires HandlersOk(handlers, requests, channels) && SameClosed(channels, channels')
    requires r in requests && HasTicket(requests[r].phase) ==> HasTicket(q.phase) && q.ticket == requests[r].ticket
    ensures HandlersOk(handlers, requests[r := q], channels')
  {
    hide HasTicket, Fits;
    forall h | h in handlers ensures HandlerOk(handlers[h], requests[r := q], channels') {
      assert HandlerOk(handlers[h], requests, channels);
    }
  }

  /** All other requests keep their own conditions; counters may only have grown. */
  lemma RequestsTouch(requests: map<nat, Request>, channels: map<nat, Channel>, counter: nat, swaps: nat,
                      r: nat, q: Request, channels': map<nat, Channel>, counter': nat)
    requires RequestsOk(requests, channels, counter, swaps) && counter <= counter'
    requires forall x :: x != r ==> ChannelOf(channels', x) == ChannelOf(channels, x)
    requires RequestOk(q, ChannelOf(channels', r), counter', swaps)
    ensures RequestsOk(requests[r := q], channels', counter', swaps)
  {
    hide HasTicket, Carried, Fits, Misjudged;
    forall x | x in requests && x != r ensures RequestOk(requests[x], ChannelOf(channels', x), counter', swaps) {
      assert RequestOk(requests[x], ChannelOf(channels, x), counter, swaps);
    }
    forall x | x in channels' ensures x in requests[r := q] {
      if x != r { assert ChannelOf(channels, x) == ChannelOf(channels', x); }
    }
  }

  lemma TicketsTouch(requests: map<nat, Request>, r: nat, q: Request)
    requires TicketsDistinct(requests)
    requires !HasTicket(q.phase) || (r in requests && HasTicket(requests[r].phase) && q.ticket == requests[r].ticket)
             || (forall x :: x in requests && x != r && HasTicket(requests[x].phase) ==> requests[x].ticket != q.ticket)
    ensures TicketsDistinct(requests[r := q])
  {
    hide HasTicket;
  }

  /**
   Replacing a ticketed request and its channel. The ticket and epoch stay, the channel is
   neither opened nor closed, and a request that stops holding its ID is not registered.
   */
  lemma UpdateKeeps(s: State, r: nat, q: Request, ch: Channel, m: Metrics)
    requires Inv(s) && r in s.requests && r in s.channels
    requires RequestOk(q, Some(ch), s.counter, s.swaps)
    requires q.ticket == s.requests[r].ticket && q.epoch == s.requests[r].epoch
    requires ch.closed == s.channels[r].closed
    requires Holding(q.phase) || !InPending(s, r)
    ensures Inv(s.(requests := s.requests[r := q], channels := s.channels[r := ch], metrics := m))
  {
    assert RequestOk(s.requests[r], ChannelOf(s.channels, r), s.counter, s.swaps);
    hide RequestsOk, RequestOk, TicketsDistinct, PendingOk, HandlersOk, ShutdownOk, HasTicket, Holding, InvokeId,
      ChannelOf, SameClosed;
    ChannelReplaced(s.channels, r, ch);
    var channels := s.channels[r := ch];
    RequestsTouch(s.requests, s.channels, s.counter, s.swaps, r, q, channels, s.counter);
    TicketsTouch(s.requests, r, q);
    PendingTouch(s.pending, s.requests, s.channels, s.swaps, r, q, channels);
    HandlersTouch(s.handlers, s.requests, s.channels, r, q, channels);
  }

  /** The same without a change to the channel. */
  lemma ReplaceKeeps(s: State, r: nat, q: Request, m: Metrics)
    requires Inv(s) && r in s.requests && r in s.channels
    requires RequestOk(q, Some(s.channels[r]), s.counter, s.swaps)
    requires q.ticket == s.requests[r].ticket && q.epoch == s.requests[r].epoch
    requires Holding(q.phase) || !InPending(s, r)
    ensures Inv(s.(requests := s.requests[r := q], metrics := m))
  {
    hide RequestOk, Inv, Holding, InPending;
    assert s.channels[r := s.channels[r]] == s.channels;
    UpdateKeeps(s, r, q, s.channels[r], m);
  }

  /** Adding or replacing a request that has no ticket. */
  lemma UnticketedKeeps(s: State, r: nat, q: Request, m: Metrics)
    requires Inv(s) && !HasTicket(q.phase) && q.epoch == 0 && q.got == []
    requires r in s.requests ==> !HasTicket(s.requests[r].phase)
    ensures Inv(s.(requests := s.requests[r := q], metrics := m))
  {
    UnticketedIsPlain(q.phase);
    assert r !in s.channels by {
      if r in s.requests { assert RequestOk(s.requests[r], ChannelOf(s.channels, r), s.counter, s.swaps); }
    }
    assert RequestOk(q, ChannelOf(s.channels, r), s.counter, s.swaps);
    forall k | k in s.pending ensures s.pending[k] != r {
      assert EntryOk(k, s.pending[k], s.requests, s.channels, s.swaps);
    }
    hide RequestsOk, RequestOk, TicketsDistinct, PendingOk, HandlersOk, ShutdownOk, HasTicket, Holding, InvokeId;
    RequestsTouch(s.requests, s.channels, s.counter, s.swaps, r, q, s.channels, s.counter);
    TicketsTouch(s.requests, r, q);
    PendingTouch(s.pending, s.requests, s.channels, s.swaps, r, q, s.channels);
    HandlersTouch(s.handlers, s.requests, s.channels, r, q, s.channels);
  }

  lemma UnticketedIsPlain(p: Phase)
    requires !HasTicket(p)
    ensures Carried(p) == None && !Holding(p) && !Misjudged(p) && p != Allocated
  {
  }

  /** Steps that only move the program counter and a metric. */
  predicate IsPlainMove(step: RequestStep) {
    step != Allocate && step != Register && step != Receive && step != Delete
  }

  /** What a plain move does to the standing of a request. */
  lemma PlainMove(p: Phase, step: RequestStep, connected: bool, buffer: Option<Apdu>)
    requires CanStep(p, step) && IsPlainMove(step)
    ensures var p' := NextPhase(p, step, connected, buffer);
            && HasTicket(p') == HasTicket(p) && (HasTicket(p) ==> Holding(p'))
            && Carried(p') == Carried(p) && p' != Allocated
            && (Misjudged(p') ==>
                  Misjudged(p) || (Carried(p).Some? && !IsReplyType(Carried(p).value.pduType)))
  {
  }

  /** A ticketed request stays in order and goes on holding its ID. */
  lemma PlainMoveOk(s: State, r: nat, step: RequestStep)
    requires Inv(s) && RequestEnabled(s, r, step) && IsPlainMove(step) && HasTicket(s.requests[r].phase)
    ensures r in s.channels && Holding(Moved(s, r, step).phase)
    ensures RequestOk(Moved(s, r, step), Some(s.channels[r]), s.counter, s.swaps)
  {
    hide InvokeId, TicketsDistinct, PendingOk, HandlersOk, ShutdownOk, NextPhase, HasTicket, Carried, Misjudged,
      Holding, CanStep;
    var p := s.requests[r].phase;
    assert RequestOk(s.requests[r], ChannelOf(s.channels, r), s.counter, s.swaps);
    PlainMove(p, step, s.connection == Connected, Buffered(s, r));
    if Carried(p).Some? {
      assert Carried(p).value in s.requests[r].got;
    }
  }

  /** One without a ticket stays without. */
  lemma UnticketedMove(s: State, r: nat, step: RequestStep)
    requires Inv(s) && RequestEnabled(s, r, step) && IsPlainMove(step) && !HasTicket(s.requests[r].phase)
    ensures var q := Moved(s, r, step); !HasTicket(q.phase) && q.epoch == 0 && q.got == []
  {
    hide InvokeId, TicketsDistinct, PendingOk, HandlersOk, ShutdownOk, NextPhase, HasTicket, Misjudged, CanStep;
    var p := s.requests[r].phase;
    assert RequestOk(s.requests[r], ChannelOf(s.channels, r), s.counter, s.swaps);
    PlainMove(p, step, s.connection == Connected, Buffered(s, r));
    UnticketedIsPlain(p);
  }

  lemma PlainMoveKeeps(s: State, r: nat, step: RequestStep)
    requires Inv(s) && RequestEnabled(s, r, step) && IsPlainMove(step)
    ensures Inv(ApplyRequest(s, r, step))
  {
    PlainShape(s, r, step);
    var p, q := s.requests[r].phase, Moved(s, r, step);
    hide Inv, RequestOk, NextMetrics, NextPhase, HasTicket, Holding, CanStep, ApplyRequest, InPending;
    var m := NextMetrics(s.metrics, p, step);
    if HasTicket(p) {
      PlainMoveOk(s, r, step);
      ReplaceKeeps(s, r, q, m);
    } else {
      UnticketedMove(s, r, step);
      UnticketedKeeps(s, r, q, m);
    }
  }

  /** The steps of a request, written out. */
  lemma PlainShape(s: State, r: nat, step: RequestStep)
    requires RequestEnabled(s, r, step) && IsPlainMove(step)
    ensures ApplyRequest(s, r, step)
            == s.(requests := s.requests[r := Moved(s, r, step)],
                  metrics := NextMetrics(s.metrics, s.requests[r].phase, step))
  {
    hide NextMetrics, Moved, CanStep;
  }

  lemma AllocateShape(s: State, r: nat)
    requires RequestEnabled(s, r, Allocate)
    ensures ApplyRequest(s, r, Allocate)
            == s.(counter := s.counter + 1,
                  requests := s.requests[r := s.requests[r].(phase := Allocated, ticket := s.counter + 1)],
                  channels := s.channels[r := Channel(None, false)])
  {
  }

  lemma RegisterShape(s: State, r: nat)
    requires RequestEnabled(s, r, Register)
    ensures ApplyRequest(s, r, Register)
            == s.(requests := s.requests[r := s.requests[r].(phase := Registered, epoch := s.swaps)],
                  pending := s.pending[InvokeId(s.requests[r].ticket) := r])
  {
  }

  lemma ReceiveShape(s: State, r: nat)
    requires RequestEnabled(s, r, Receive)
    ensures var b := s.channels[r].buffer;
            ApplyRequest(s, r, Receive)
            == s.(requests := s.requests[r := s.requests[r].(
                                phase := Received(b), got := s.requests[r].got + if b.Some? then [b.value] else [])],
                  channels := s.channels[r := s.channels[r].(buffer := None)])
  {
  }

  lemma DeleteShape(s: State, r: nat)
    requires RequestEnabled(s, r, Delete)
    ensures r in s.requests
    ensures ApplyRequest(s, r, Delete)
            == s.(requests := s.requests[r := s.requests[r].(phase := Done(s.requests[r].phase.outcome))],
                  pending := s.pending - {InvokeId(s.requests[r].ticket)})
  {
  }

  lemma CovTicketKeeps(s: State)
    requires Inv(s)
    ensures Inv(s.(counter := s.counter + 1))
  {
    hide Fits, InvokeId, ShutdownOk, PendingOk, HandlersOk, HasTicket, Carried;
  }

  /** A request that had no ticket is given the next one, and a new channel. */
  lemma TicketedKeeps(s: State, r: nat, q: Request, ch: Channel)
    requires Inv(s) && r in s.requests && r !in s.channels && !HasTicket(s.requests[r].phase)
    requires RequestOk(q, Some(ch), s.counter + 1, s.swaps) && q.ticket == s.counter + 1
    requires forall k :: k in s.pending ==> s.pending[k] != r
    ensures Inv(s.(counter := s.counter + 1, requests := s.requests[r := q], channels := s.channels[r := ch]))
  {
    TicketsBelowCounter(s);
    hide RequestsOk, RequestOk, TicketsDistinct, PendingOk, HandlersOk, ShutdownOk, HasTicket, Holding, InvokeId,
      ChannelOf, SameClosed;
    ChannelReplaced(s.channels, r, ch);
    var channels := s.channels[r := ch];
    RequestsTouch(s.requests, s.channels, s.counter, s.swaps, r, q, channels, s.counter + 1);
    TicketsTouch(s.requests, r, q);
    PendingTouch(s.pending, s.requests, s.channels, s.swaps, r, q, channels);
    HandlersTouch(s.handlers, s.requests, s.channels, r, q, channels);
  }

  lemma AllocateKeeps(s: State, r: nat)
    requires Inv(s) && RequestEnabled(s, r, Allocate)
    ensures Inv(ApplyRequest(s, r, Allocate))
  {
    AllocateShape(s, r);
    FreshTicket(s, r);
    hide Inv, ApplyRequest, RequestOk, HasTicket;
    var s' := ApplyRequest(s, r, Allocate);
    TicketedKeeps(s, r, s'.requests[r], s'.channels[r]);
  }

  lemma TicketsBelowCounter(s: State)
    requires Inv(s)
    ensures forall x :: x in s.requests && HasTicket(s.requests[x].phase) ==> s.requests[x].ticket <= s.counter
  {
    hide TicketsDistinct, PendingOk, HandlersOk, ShutdownOk, HasTicket, Carried, Misjudged;
    forall x | x in s.requests && HasTicket(s.requests[x].phase) ensures s.requests[x].ticket <= s.counter {
      assert RequestOk(s.requests[x], ChannelOf(s.channels, x), s.counter, s.swaps);
    }
  }

  lemma FreshTicket(s: State, r: nat)
    requires Inv(s) && RequestEnabled(s, r, Allocate)
    ensures var s' := ApplyRequest(s, r, Allocate);
            && RequestOk(s'.requests[r], ChannelOf(s'.channels, r), s'.counter, s'.swaps)
            && r !in s.channels && !HasTicket(s.requests[r].phase)
            && (forall k :: k in s.pending ==> s.pending[k] != r)
  {
    hide ShutdownOk, HandlersOk, TicketsDistinct;
    assert RequestOk(s.requests[r], ChannelOf(s.channels, r), s.counter, s.swaps);
    forall k | k in s.pending ensures s.pending[k] != r {
      assert EntryOk(k, s.pending[k], s.requests, s.channels, s.swaps);
    }
  }

  /** Registration overwrites whatever stood under the same ID; no other entry changes. */
  lemma RegisterKeeps(s: State, r: nat)
    requires Inv(s) && RequestEnabled(s, r, Register)
    ensures Inv(ApplyRequest(s, r, Register))
  {
    RegisterShape(s, r);
    RegisteredOk(s, r);
    hide ApplyRequest, RequestEnabled, TicketsDistinct, RequestsOk, RequestOk, PendingOk, HandlersOk, ShutdownOk,
      HasTicket, Holding, InvokeId;
    var q := ApplyRequest(s, r, Register).requests[r];
    RequestsTouch(s.requests, s.channels, s.counter, s.swaps, r, q, s.channels, s.counter);
    TicketsTouch(s.requests, r, q);
    PendingTouch(s.pending, s.requests, s.channels, s.swaps, r, q, s.channels);
    HandlersTouch(s.handlers, s.requests, s.channels, r, q, s.channels);
    EntryAdded(s.pending, s.requests[r := q], s.channels, s.swaps, r);
  }

  lemma EntryAdded(pending: map<byte, nat>, requests: map<nat, Request>, channels: map<nat, Channel>, swaps: nat,
                   r: nat)
    requires PendingOk(pending, requests, channels, swaps)
    requires r in requests && EntryOk(InvokeId(requests[r].ticket), r, requests, channels, swaps)
    ensures PendingOk(pending[InvokeId(requests[r].ticket) := r], requests, channels, swaps)
  {
    hide InvokeId, EntryOk;
  }

  lemma RegisteredOk(s: State, r: nat)
    requires Inv(s) && RequestEnabled(s, r, Register)
    ensures var s' := ApplyRequest(s, r, Register);
            var q' := s'.requests[r];
            && RequestOk(q', ChannelOf(s.channels, r), s.counter, s.swaps)
            && Holding(q'.phase) && HasTicket(q'.phase) && HasTicket(s.requests[r].phase)
            && r in s.channels && !s.channels[r].closed && !InPending(s, r)
  {
    hide ShutdownOk, HandlersOk, TicketsDistinct;
    assert RequestOk(s.requests[r], ChannelOf(s.channels, r), s.counter, s.swaps);
    forall k | k in s.pending ensures s.pending[k] != r {
      assert EntryOk(k, s.pending[k], s.requests, s.channels, s.swaps);
    }
  }

  lemma ReceiveKeeps(s: State, r: nat)
    requires Inv(s) && RequestEnabled(s, r, Receive)
    ensures Inv(ApplyRequest(s, r, Receive))
  {
    ReceiveShape(s, r);
    ReceivedOk(s, r);
    hide Inv, ApplyRequest, RequestEnabled, CanStep, RequestOk, Holding;
    var s' := ApplyRequest(s, r, Receive);
    UpdateKeeps(s, r, s'.requests[r], s'.channels[r], s.metrics);
  }

  lemma ReceivedOk(s: State, r: nat)
    requires Inv(s) && RequestEnabled(s, r, Receive)
    ensures r in s.requests && r in s.channels
    ensures var b, q := s.channels[r].buffer, s.requests[r];
            var q' := q.(phase := Received(b), got := q.got + if b.Some? then [b.value] else []);
            RequestOk(q', Some(s.channels[r].(buffer := None)), s.counter, s.swaps) && Holding(q'.phase)
  {
    hide ShutdownOk, PendingOk, HandlersOk, TicketsDistinct, InvokeId, Fits;
    assert s.requests[r].phase == Waiting;
    assert RequestOk(s.requests[r], ChannelOf(s.channels, r), s.counter, s.swaps);
  }

  lemma DropEntryKeeps(s: State, k: byte)
    requires Inv(s)
    ensures Inv(s.(pending := s.pending - {k}))
    ensures forall r :: r in s.requests && InvokeId(s.requests[r].ticket) == k ==>
              !InPending(s.(pending := s.pending - {k}), r)
  {
    hide RequestsOk, TicketsDistinct, HandlersOk, ShutdownOk, InvokeId, Holding;
    var s' := s.(pending := s.pending - {k});
    forall j | j in s'.pending ensures EntryOk(j, s'.pending[j], s'.requests, s'.channels, s'.swaps) {
      assert EntryOk(j, s.pending[j], s.requests, s.channels, s.swaps);
    }
  }

  lemma DeleteKeeps(s: State, r: nat)
    requires Inv(s) && RequestEnabled(s, r, Delete)
    ensures Inv(ApplyRequest(s, r, Delete))
  {
    DeleteShape(s, r);
    DeletedOk(s, r);
    hide Inv, InvokeId, InPending, RequestOk, ApplyRequest, RequestEnabled;
    var q := ApplyRequest(s, r, Delete).requests[r];
    DropEntryKeeps(s, InvokeId(q.ticket));
    ReplaceKeeps(s.(pending := s.pending - {InvokeId(q.ticket)}), r, q, s.metrics);
  }

  lemma DeletedOk(s: State, r: nat)
    requires Inv(s) && RequestEnabled(s, r, Delete)
    ensures r in s.channels
    ensures var q := s.requests[r].(phase := Done(s.requests[r].phase.outcome));
            RequestOk(q, Some(s.channels[r]), s.counter, s.swaps)
  {
    hide TicketsDistinct, PendingOk, HandlersOk, ShutdownOk, InvokeId, Fits;
    assert RequestOk(s.requests[r], ChannelOf(s.channels, r), s.counter, s.swaps);
  }

  lemma RequestStepKeeps(s: State, r: nat, step: RequestStep)
    requires Inv(s) && RequestEnabled(s, r, step)
    ensures Inv(ApplyRequest(s, r, step))
  {
    hide Inv, ApplyRequest, RequestEnabled;
    match step
    case Allocate => AllocateKeeps(s, r);
    case Register => RegisterKeeps(s, r);
    case Receive => ReceiveKeeps(s, r);
    case Delete => DeleteKeeps(s, r);
    case _ => PlainMoveKeeps(s, r, step);
  }

  // ---- Handlers ------------------------------------------------------------

  /** Handlers coming and going, and the receiver moving: requests are untouched. */
  lemma HandlerSetKeeps(s: State, handlers: map<nat, Handler>, receiver: Receiver, waitGroup: nat)
    requires Inv(s)
    requires forall h :: h in handlers ==> HandlerOk(handlers[h], s.requests, s.channels)
    requires ShutdownOk(s.connection, receiver, s.cancelled, waitGroup, |handlers|, s.closers)
    ensures Inv(s.(handlers := handlers, receiver := receiver, waitGroup := waitGroup))
  {
    hide RequestsOk, TicketsDistinct, PendingOk, ShutdownOk, HandlerOk;
  }

  /** What the lookup finds is registered, hence open, and carries the ID it was found under. */
  lemma LookupFinds(s: State, data: seq<byte>)
    requires Inv(s)
    ensures HandlerOk(AfterLookup(s, data), s.requests, s.channels)
  {
    hide RequestsOk, TicketsDistinct, HandlersOk, ShutdownOk, HandlePacket, InvokeId;
    var h := AfterLookup(s, data);
    if h.Delivering? {
      assert EntryOk(h.apdu.invokeId, h.channel, s.requests, s.channels, s.swaps);
    }
  }

  lemma ReplaceHandlerKeeps(s: State, h: nat, handler: Handler)
    requires Inv(s) && h in s.handlers && HandlerOk(handler, s.requests, s.channels)
    ensures Inv(s.(handlers := s.handlers[h := handler]))
  {
    hide RequestsOk, TicketsDistinct, PendingOk, ShutdownOk, HandlerOk;
    var handlers := s.handlers[h := handler];
    assert handlers.Keys == s.handlers.Keys && |handlers| == |handlers.Keys| && |s.handlers| == |s.handlers.Keys|;
    HandlerSetKeeps(s, handlers, s.receiver, s.waitGroup);
  }

  lemma BufferKeeps(s: State, r: nat, a: Apdu)
    requires Inv(s) && r in s.channels && r in s.requests && !s.channels[r].closed
    requires Fits(a, s.requests[r].ticket)
    ensures Inv(s.(channels := s.channels[r := Channel(Some(a), false)]))
  {
    hide Fits, InvokeId, TicketsDistinct, HasTicket, Holding, Carried, Misjudged, ShutdownOk;
    var channels := s.channels[r := Channel(Some(a), false)];
    assert PendingOk(s.pending, s.requests, channels, s.swaps) by {
      forall k | k in s.pending ensures EntryOk(k, s.pending[k], s.requests, channels, s.swaps) {
        assert EntryOk(k, s.pending[k], s.requests, s.channels, s.swaps);
      }
    }
    assert HandlersOk(s.handlers, s.requests, channels) by {
      forall h | h in s.handlers ensures HandlerOk(s.handlers[h], s.requests, channels) {
        assert HandlerOk(s.handlers[h], s.requests, s.channels);
      }
    }
    assert RequestOk(s.requests[r], ChannelOf(s.channels, r), s.counter, s.swaps);
  }

  /** The send never meets a closed channel: the handler's channel is open while it holds it. */
  lemma DeliverKeeps(s: State, h: nat)
    requires Inv(s) && HandlerEnabled(s, h, Deliver)
    ensures Inv(ApplyHandler(s, h, Deliver)) && !s.channels[s.handlers[h].channel].closed
  {
    HeldIsOpen(s, h);
    hide Inv, Fits;
    ReplaceHandlerKeeps(s, h, Returning);
    var handler, t := s.handlers[h], s.(handlers := s.handlers[h := Returning]);
    if s.channels[handler.channel].buffer.None? {
      BufferKeeps(t, handler.channel, handler.apdu);
    }
  }

  lemma HeldIsOpen(s: State, h: nat)
    requires Inv(s) && h in s.handlers && s.handlers[h].Delivering?
    ensures var handler := s.handlers[h];
            && handler.channel in s.channels && !s.channels[handler.channel].closed
            && handler.channel in s.requests && Fits(handler.apdu, s.requests[handler.channel].ticket)
  {
    hide RequestsOk, TicketsDistinct, PendingOk, ShutdownOk, Fits, HasTicket;
    assert HandlerOk(s.handlers[h], s.requests, s.channels);
  }

  lemma ReturnKeeps(s: State, h: nat)
    requires Inv(s) && h in s.handlers && s.waitGroup > 0
    ensures Inv(s.(handlers := s.handlers - {h}, waitGroup := s.waitGroup - 1))
  {
    hide RequestsOk, TicketsDistinct, PendingOk, HandlerOk;
    var handlers := s.handlers - {h};
    RemoveKey(s.handlers, h);
    assert ShutdownOk(s.connection, s.receiver, s.cancelled, s.waitGroup - 1, |handlers|, s.closers);
    hide ShutdownOk;
    HandlerSetKeeps(s, handlers, s.receiver, s.waitGroup - 1);
  }

  lemma HandlerStepKeeps(s: State, h: nat, step: HandlerStep)
    requires Inv(s) && HandlerEnabled(s, h, step)
    ensures Inv(ApplyHandler(s, h, step))
  {
    hide Inv, AfterLookup, Offer;
    match step
    case Lookup =>
      LookupFinds(s, s.handlers[h].data);
      ReplaceHandlerKeeps(s, h, AfterLookup(s, s.handlers[h].data));
    case Deliver => DeliverKeeps(s, h);
    case Return => ReturnKeeps(s, h);
  }

  lemma SpawnKeeps(s: State, h: nat)
    requires Inv(s) && s.receiver.Added? && h !in s.handlers
    ensures Inv(s.(receiver := Polling, handlers := s.handlers[h := Decoding(s.receiver.data)]))
  {
    hide RequestsOk, TicketsDistinct, PendingOk;
    var handlers := s.handlers[h := Decoding(s.receiver.data)];
    AddKey(s.handlers, h, Decoding(s.receiver.data));
    assert ShutdownOk(s.connection, Polling, s.cancelled, s.waitGroup, |handlers|, s.closers);
    hide ShutdownOk;
    HandlerSetKeeps(s, handlers, Polling, s.waitGroup);
  }

  lemma ReceiverMoveKeeps(s: State, receiver: Receiver, waitGroup: nat)
    requires Inv(s) && Running(s.receiver) && !s.receiver.Added?
    requires waitGroup == s.waitGroup + if receiver.Added? then 1 else 0
    ensures Inv(s.(receiver := receiver, waitGroup := waitGroup))
  {
    hide RequestsOk, TicketsDistinct, PendingOk, HandlerOk;
    HandlerSetKeeps(s, s.handlers, receiver, waitGroup);
  }

  lemma ReceiverStepKeeps(s: State, step: ReceiverStep)
    requires Inv(s) && ReceiverEnabled(s, step)
    ensures Inv(ApplyReceiver(s, step))
  {
    hide Inv;
    var s' := ApplyReceiver(s, step);
    if step.SpawnHandler? {
      SpawnKeeps(s, step.h);
    } else {
      ReceiverMoveKeeps(s, s'.receiver, s'.waitGroup);
    }
  }

  // ---- Connect and Close ---------------------------------------------------

  lemma ConnectStepKeeps(s: State, step: ConnectStep)
    requires Inv(s) && ConnectEnabled(s, step)
    ensures Inv(ApplyConnect(s, step))
  {
    hide RequestsOk, TicketsDistinct, PendingOk, HandlersOk;
  }

  lemma CloseCallKeeps(s: State, c: nat)
    requires Inv(s) && CloseCallEnabled(s, c)
    ensures Inv(ApplyCloseCall(s, c))
  {
    hide RequestsOk, TicketsDistinct, PendingOk, HandlersOk;
  }

  /** A `Close` call moving on from where it stands. */
  lemma AdvanceKeepsOrder(connection: Connection, receiver: Receiver, cancelled: bool, waitGroup: nat, handlers: nat,
                          closers: map<nat, CloseStep>, c: nat,
                          connection': Connection, cancelled': bool, step: CloseStep)
    requires ShutdownOk(connection, receiver, cancelled, waitGroup, handlers, closers) && c in closers
    requires connection' == if closers[c] == Loaded then Disconnected else connection
    requires cancelled' == (cancelled || closers[c] == Stored)
    requires closers[c] != Swapped && step == NextClose(closers[c])
    requires closers[c] == Stopped ==> !Running(receiver)
    requires closers[c] == ReceiverGone ==> waitGroup == 0
    ensures ShutdownOk(connection', receiver, cancelled', waitGroup, handlers, closers[c := step])
  {
    var closers' := closers[c := step];
    if step == Stored || step == Stopped {
      assert c in closers' && closers'[c] == step;
    }
  }

  lemma LeaveKeepsOrder(connection: Connection, receiver: Receiver, cancelled: bool, waitGroup: nat, handlers: nat,
                        closers: map<nat, CloseStep>, c: nat)
    requires ShutdownOk(connection, receiver, cancelled, waitGroup, handlers, closers)
    requires c in closers && closers[c] == Swapped
    ensures ShutdownOk(connection, receiver, cancelled, waitGroup, handlers, closers - {c})
  {
  }

  lemma SwapLeavesControl(s: State)
    ensures var s' := CloseAndSwap(s);
            && s'.connection == s.connection && s'.receiver == s.receiver && s'.cancelled == s.cancelled
            && s'.waitGroup == s.waitGroup && s'.handlers == s.handlers && s'.closers == s.closers
  {
    hide InPending, WouldCloseTwice;
  }

  /** Every move of a `Close` call keeps the shutdown order. */
  lemma CloserKeepsOrder(s: State, c: nat)
    requires ShutdownOk(s.connection, s.receiver, s.cancelled, s.waitGroup, |s.handlers|, s.closers)
    requires CloserEnabled(s, c)
    ensures var s' := ApplyCloser(s, c);
            ShutdownOk(s'.connection, s'.receiver, s'.cancelled, s'.waitGroup, |s'.handlers|, s'.closers)
  {
    hide CloseAndSwap, ShutdownOk;
    var s' := ApplyCloser(s, c);
    if s.closers[c] == Drained {
      SwapLeavesControl(s.(closers := s.closers[c := Swapped]));
    }
    if s.closers[c] == Swapped {
      LeaveKeepsOrder(s.connection, s.receiver, s.cancelled, s.waitGroup, |s.handlers|, s.closers, c);
    } else {
      AdvanceKeepsOrder(s.connection, s.receiver, s.cancelled, s.waitGroup, |s.handlers|, s.closers, c,
                        s'.connection, s'.cancelled, s'.closers[c]);
    }
  }

  /** When the channels are closed, no handler is left that could send on one of them. */
  lemma NoHandlersAtSwap(s: State, c: nat)
    requires Inv(s) && c in s.closers && s.closers[c] == Drained
    ensures s.handlers == map[] && !Running(s.receiver)
  {
    hide RequestsOk, TicketsDistinct, PendingOk, HandlersOk;
    assert |s.handlers| == 0;
  }

  /** No channel is closed twice: registered channels are open, and no two IDs share one. */
  lemma SwapClosesOnce(s: State)
    requires Inv(s)
    ensures !WouldCloseTwice(s)
  {
    hide RequestsOk, TicketsDistinct, HandlersOk, ShutdownOk, InvokeId, Holding;
    forall k | k in s.pending ensures EntryOk(k, s.pending[k], s.requests, s.channels, s.swaps) {}
  }

  lemma SwapKeeps(s: State)
    requires Inv(s) && s.handlers == map[]
    ensures Inv(CloseAndSwap(s))
  {
    hide Fits, InvokeId, HasTicket, Holding, Carried, Misjudged, TicketsDistinct, WouldCloseTwice, ShutdownOk;
    var s' := CloseAndSwap(s);
    SwapClosesOnce(s);
    assert RequestsOk(s'.requests, s'.channels, s'.counter, s'.swaps) by {
      forall x | x in s'.requests
        ensures RequestOk(s'.requests[x], ChannelOf(s'.channels, x), s'.counter, s'.swaps)
      {
        assert RequestOk(s.requests[x], ChannelOf(s.channels, x), s.counter, s.swaps);
        if InPending(s, x) {
          var k :| k in s.pending && s.pending[k] == x;
          assert EntryOk(k, x, s.requests, s.channels, s.swaps);
          AllocatedIsNotHolding(s.requests[x].phase);
        }
      }
    }
  }

  lemma AllocatedIsNotHolding(p: Phase)
    ensures p == Allocated ==> !Holding(p)
  {
  }

  lemma CloserStepKeeps(s: State, c: nat)
    requires Inv(s) && CloserEnabled(s, c)
    ensures Inv(ApplyCloser(s, c))
  {
    hide RequestsOk, TicketsDistinct, PendingOk, HandlersOk, ShutdownOk, CloseAndSwap;
    CloserKeepsOrder(s, c);
    if s.closers[c] == Drained {
      NoHandlersAtSwap(s, c);
      SwapCommutes(s, c);
      SwapKeeps(s);
    }
  }

  /** Advancing the closer and swapping the map do not interfere. */
  lemma SwapCommutes(s: State, c: nat)
    requires c in s.closers
    ensures CloseAndSwap(s.(closers := s.closers[c := Swapped])) == CloseAndSwap(s).(closers := s.closers[c := Swapped])
  {
    var t := s.(closers := s.closers[c := Swapped]);
    assert forall r :: InPending(s, r) == InPending(t, r);
    assert WouldCloseTwice(s) == WouldCloseTwice(t);
  }

  // ---- Every step ----------------------------------------------------------

  lemma StepKeepsInv(s: State, step: Step)
    requires Inv(s) && Enabled(s, step)
    ensures Inv(Apply(s, step))
  {
    hide Inv, RequestEnabled, ApplyRequest, ReceiverEnabled, ApplyReceiver, HandlerEnabled, ApplyHandler,
      ConnectEnabled, ApplyConnect, CloseCallEnabled, ApplyCloseCall, CloserEnabled, ApplyCloser;
    match step
    case NewRequest(r, confirmed) =>
      UnticketedKeeps(s, r, Request(if confirmed then Called else UnconfirmedCalled, 0, 0, []), s.metrics);
    case CovTicket => CovTicketKeeps(s);
    case OfRequest(r, x) => RequestStepKeeps(s, r, x);
    case OfReceiver(x) => ReceiverStepKeeps(s, x);
    case OfHandler(h, x) => HandlerStepKeeps(s, h, x);
    case OfConnect(x) => ConnectStepKeeps(s, x);
    case CloseCall(c) => CloseCallKeeps(s, c);
    case OfCloser(c) => CloserStepKeeps(s, c);
  }

  lemma {:induction false} TraceKeepsInv(states: seq<State>, steps: seq<Step>, i: nat)
    requires IsTrace(states, steps) && i < |states| && Inv(states[0])
    ensures Inv(states[i])
  {
    hide Inv, Apply, Enabled;
    if i > 0 {
      TraceKeepsInv(states, steps, i - 1);
      StepKeepsInv(states[i - 1], steps[i - 1]);
    }
  }

  /** What would be seen if it happened: a send on a closed channel, */
  lemma ClosedSendPanics(s: State, h: nat)
    requires HandlerEnabled(s, h, Deliver) && s.channels[s.handlers[h].channel].closed
    ensures ApplyHandler(s, h, Deliver).panicked
  {
    hide NextHandlers, Offer;
  }

  /** and the closing of a channel that is closed or stands under two IDs. */
  lemma SecondClosePanics(s: State, j: byte, k: byte)
    requires j in s.pending && k in s.pending && s.pending[j] == s.pending[k] && s.pending[k] in s.channels
    requires j != k || s.channels[s.pending[k]].closed
    ensures CloseAndSwap(s).panicked
  {
    hide InPending;
  }

  // ---- Safety over runs ----------------------------------------------------

  /** In no run is there a send on a closed channel or a second close of one. */
  lemma RunsNeverPanic(states: seq<State>, steps: seq<Step>, i: nat)
    requires IsRun(states, steps) && i < |states|
    ensures !states[i].panicked
    ensures forall k :: k in states[i].pending ==>
              states[i].pending[k] in states[i].channels && !states[i].channels[states[i].pending[k]].closed
    ensures forall h :: h in states[i].handlers && states[i].handlers[h].Delivering? ==>
              && states[i].handlers[h].channel in states[i].channels
              && !states[i].channels[states[i].handlers[h].channel].closed
  {
    InitialInv();
    hide IsTrace, RequestsOk, TicketsDistinct, ShutdownOk;
    TraceKeepsInv(states, steps, i);
    forall k | k in states[i].pending
      ensures states[i].pending[k] in states[i].channels && !states[i].channels[states[i].pending[k]].closed
    {
      assert EntryOk(k, states[i].pending[k], states[i].requests, states[i].channels, states[i].swaps);
    }
    forall h | h in states[i].handlers && states[i].handlers[h].Delivering?
      ensures && states[i].handlers[h].channel in states[i].channels
              && !states[i].channels[states[i].handlers[h].channel].closed
    {
      assert HandlerOk(states[i].handlers[h], states[i].requests, states[i].channels);
    }
  }

  /**
   In every run, whatever wraparound did to the IDs, a request takes at most one reply from
   its channel, and that reply names the request's own invoke ID.
   */
  lemma RepliesMatch(states: seq<State>, steps: seq<Step>, i: nat, r: nat)
    requires IsRun(states, steps) && i < |states| && r in states[i].requests
    ensures var q := states[i].requests[r];
            && |q.got| <= 1
            && forall a :: a in q.got ==> a.invokeId == InvokeId(q.ticket) && IsReplyType(a.pduType)
    ensures Carried(states[i].requests[r].phase).Some? ==>
              states[i].requests[r].got == [Carried(states[i].requests[r].phase).value]
    ensures !(Judged(states[i].requests[r].phase) && states[i].requests[r].phase.outcome.Unexpected?)
  {
    InitialInv();
    hide IsTrace, TicketsDistinct, ShutdownOk, PendingOk, HandlersOk;
    TraceKeepsInv(states, steps, i);
    var s := states[i];
    assert RequestOk(s.requests[r], ChannelOf(s.channels, r), s.counter, s.swaps);
  }
}
