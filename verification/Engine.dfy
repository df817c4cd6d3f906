/**
 The request engine of client.go as a machine of atomic steps.

 Every mutex section, atomic operation and channel operation is one step; the goroutines
 are program counters in the state. The network is free: a send may succeed or fail, any
 bytes may arrive at any time, and a context may end at any time. Each request makes one
 channel, so a channel is named after the request that made it.

 Assumed, as AUDIT.md:108 leaves it to the caller: `Connect` and `Close` do not overlap.
 Several `Close` calls may.
 */
module Engine {
  import opened Bytes
  import opened Packets

  // ---- State ---------------------------------------------------------------

  /** The connection state word; `Opening` and `Starting` are StateConnecting before and after the receiver starts. */
  datatype Connection = Disconnected | Opening | Starting | Connected

  /** A channel of capacity one. */
  datatype Channel = Channel(buffer: Option<Apdu>, closed: bool)

  datatype Outcome =
    | Answered(ack: Apdu)
    | Refused(error: Apdu)
    | Unexpected(other: Apdu)
    | ConnectionClosed
    | TimedOut
    | SendError

  /** Where a call of `sendRequest` (or, below, `sendUnconfirmedRequest`) stands. */
  datatype Phase =
    | Called
    | NotConnected
    | Checked
    | Allocated
    | Registered
    | Counted
    | Sending
    | SendFailed
    | Waiting
    | Cancelled
    | Received(reply: Option<Apdu>)
    | Recorded(reply: Option<Apdu>)
    | Leaving(outcome: Outcome)
    | Unwinding(outcome: Outcome)
    | Done(outcome: Outcome)
    | UnconfirmedCalled
    | UnconfirmedChecked
    | UnconfirmedCounted
    | UnconfirmedSent(ok: bool)
    | UnconfirmedDone(ok: bool)

  /** `got` is the history of what the request took from its channel. */
  datatype Request = Request(phase: Phase, ticket: nat, epoch: nat, got: seq<Apdu>)

  datatype Receiver = NotStarted | Polling | Reading | Got(data: seq<byte>) | Added(data: seq<byte>) | Exited

  datatype Handler = Decoding(data: seq<byte>) | Delivering(channel: nat, apdu: Apdu) | Returning

  datatype CloseStep = Loaded | Stored | Stopped | ReceiverGone | Drained | Swapped

  datatype Metrics = Metrics(sent: nat, succeeded: nat, failed: nat, timedOut: nat, active: int, latencies: nat)

  datatype State = State(
    connection: Connection,
    counter: nat,                  // invoke IDs handed out so far
    pending: map<byte, nat>,       // invoke ID to channel
    requests: map<nat, Request>,
    channels: map<nat, Channel>,
    receiver: Receiver,
    cancelled: bool,
    transportClosed: bool,         // for good: a closed socket is never opened again
    waitGroup: nat,
    handlers: map<nat, Handler>,
    closers: map<nat, CloseStep>,
    swaps: nat,                    // locked close-and-swap sections so far
    metrics: Metrics,
    panicked: bool)

  const INITIAL: State := State(
    Disconnected, 0, map[], map[], map[], NotStarted, false, false, 0, map[], map[], 0,
    Metrics(0, 0, 0, 0, 0, 0), false)

  /** `uint8(c.invokeID.Add(1) & 0xFF)` for the ticket-th call of a 32-bit counter. */
  function InvokeId(ticket: nat): (id: byte) {
    ticket % 0x1_0000_0000 % 0x100
  }

  // ---- Requests ------------------------------------------------------------

  datatype RequestStep =
    | CheckState
    | Allocate
    | Register
    | CountSent
    | CountActive
    | Send(ok: bool)
    | CountSendFailure
    | Cancel
    | CountTimeout
    | Receive
    | RecordLatency
    | CountOutcome
    | CountInactive
    | Delete
    | CheckUnconfirmed
    | CountUnconfirmed
    | SendUnconfirmed(sent: bool)
    | FinishUnconfirmed

  /** Which step a program counter may take next. */
  predicate CanStep(p: Phase, step: RequestStep) {
    match step
    case CheckState => p.Called?
    case Allocate => p.Checked?
    case Register => p.Allocated?
    case CountSent => p.Registered?
    case CountActive => p.Counted?
    case Send(_) => p.Sending?
    case CountSendFailure => p.SendFailed?
    case Cancel => p.Waiting?
    case CountTimeout => p.Cancelled?
    case Receive => p.Waiting?
    case RecordLatency => p.Received?
    case CountOutcome => p.Recorded?
    case CountInactive => p.Leaving?
    case Delete => p.Unwinding?
    case CheckUnconfirmed => p.UnconfirmedCalled?
    case CountUnconfirmed => p.UnconfirmedChecked?
    case SendUnconfirmed(_) => p.UnconfirmedCounted?
    case FinishUnconfirmed => p.UnconfirmedSent?
  }

  /** The outcome switch of `sendRequest` on the reply's PDU type. */
  function Classify(reply: Option<Apdu>): (o: Outcome) {
    if reply.None? then ConnectionClosed
    else if reply.value.pduType == SIMPLE_ACK || reply.value.pduType == COMPLEX_ACK then Answered(reply.value)
    else if reply.value.pduType == ERROR || reply.value.pduType == REJECT || reply.value.pduType == ABORT then
      Refused(reply.value)
    else Unexpected(reply.value)
  }

  /** Where the step leaves the program counter; `buffer` is what a receive would find. */
  function NextPhase(p: Phase, step: RequestStep, connected: bool, buffer: Option<Apdu>): (p': Phase)
    requires CanStep(p, step)
  {
    match step
    case CheckState => if connected then Checked else NotConnected
    case Allocate => Allocated
    case Register => Registered
    case CountSent => Counted
    case CountActive => Sending
    case Send(ok) => if ok then Waiting else SendFailed
    case CountSendFailure => Leaving(SendError)
    case Cancel => Cancelled
    case CountTimeout => Leaving(TimedOut)
    case Receive => Received(buffer)
    case RecordLatency => Recorded(p.reply)
    case CountOutcome => Leaving(Classify(p.reply))
    case CountInactive => Unwinding(p.outcome)
    case Delete => Done(p.outcome)
    case CheckUnconfirmed => if connected then UnconfirmedChecked else NotConnected
    case CountUnconfirmed => UnconfirmedCounted
    case SendUnconfirmed(sent) => UnconfirmedSent(sent)
    case FinishUnconfirmed => UnconfirmedDone(p.ok)
  }

  /** The one metric the step updates, if any. An unexpected PDU type counts as nothing. */
  function NextMetrics(m: Metrics, p: Phase, step: RequestStep): (m': Metrics)
    requires CanStep(p, step)
  {
    match step
    case CountSent => m.(sent := m.sent + 1)
    case CountUnconfirmed => m.(sent := m.sent + 1)
    case CountActive => m.(active := m.active + 1)
    case CountInactive => m.(active := m.active - 1)
    case CountSendFailure => m.(failed := m.failed + 1)
    case CountTimeout => m.(timedOut := m.timedOut + 1)
    case RecordLatency => m.(latencies := m.latencies + 1)
    case CountOutcome =>
      var o := Classify(p.reply);
      if o.Answered? then m.(succeeded := m.succeeded + 1)
      else if o.Refused? then m.(failed := m.failed + 1)
      else m
    case FinishUnconfirmed => if p.ok then m.(succeeded := m.succeeded + 1) else m.(failed := m.failed + 1)
    case _ => m
  }

  /**
   Only a receive can block: it waits for a buffered reply or for the channel to be closed.
   A send may fail at any time, and does once the transport is closed.
   */
  predicate RequestEnabled(s: State, r: nat, step: RequestStep) {
    && r in s.requests && CanStep(s.requests[r].phase, step)
    && (step == Receive ==> r in s.channels && (s.channels[r].buffer.Some? || s.channels[r].closed))
    && (step == Send(true) || step == SendUnconfirmed(true) ==> !s.transportClosed)
  }

  function Buffered(s: State, r: nat): (b: Option<Apdu>) {
    if r in s.channels then s.channels[r].buffer else None
  }

  function Moved(s: State, r: nat, step: RequestStep): (q: Request)
    requires RequestEnabled(s, r, step)
  {
    s.requests[r].(phase := NextPhase(s.requests[r].phase, step, s.connection == Connected, Buffered(s, r)))
  }

  /** A ticket is taken on allocation, an epoch on registration, a reply on receipt. */
  function NextRequest(s: State, r: nat, step: RequestStep): (q: Request)
    requires RequestEnabled(s, r, step)
  {
    var q := Moved(s, r, step);
    match step
    case Allocate => q.(ticket := s.counter + 1)
    case Register => q.(epoch := s.swaps)
    case Receive => q.(got := q.got + if Buffered(s, r).Some? then [Buffered(s, r).value] else [])
    case _ => q
  }

  /** A buffered reply comes out first, whether or not the channel is closed. */
  function NextChannels(s: State, r: nat, step: RequestStep): (channels: map<nat, Channel>)
    requires RequestEnabled(s, r, step)
  {
    match step
    case Allocate => s.channels[r := Channel(None, false)]
    case Receive => s.channels[r := s.channels[r].(buffer := None)]
    case _ => s.channels
  }

  function NextPending(s: State, r: nat, step: RequestStep): (pending: map<byte, nat>)
    requires RequestEnabled(s, r, step)
  {
    match step
    case Register => s.pending[InvokeId(s.requests[r].ticket) := r]
    case Delete => s.pending - {InvokeId(s.requests[r].ticket)}
    case _ => s.pending
  }

  function ApplyRequest(s: State, r: nat, step: RequestStep): (s': State)
    requires RequestEnabled(s, r, step)
  {
    s.(counter := s.counter + if step == Allocate then 1 else 0,
       pending := NextPending(s, r, step),
       requests := s.requests[r := NextRequest(s, r, step)],
       channels := NextChannels(s, r, step),
       metrics := NextMetrics(s.metrics, s.requests[r].phase, step))
  }

  // ---- Receiver and handlers -----------------------------------------------

  datatype ReceiverStep =
    | Poll
    | Read(packet: Option<seq<byte>>)
    | ReadClosed
    | AddHandler
    | SpawnHandler(h: nat)

  /** A read brings a packet, fails in passing, or finds the transport closed. */
  predicate ReceiverEnabled(s: State, step: ReceiverStep) {
    match step
    case Poll => s.receiver == Polling
    case Read(packet) => s.receiver == Reading && (packet.Some? ==> !s.transportClosed)
    case ReadClosed => s.receiver == Reading && s.transportClosed
    case AddHandler => s.receiver.Got?
    case SpawnHandler(h) => s.receiver.Added? && h !in s.handlers
  }

  function NextReceiver(r: Receiver, step: ReceiverStep, cancelled: bool): (r': Receiver)
    requires step.AddHandler? ==> r.Got?
  {
    match step
    case Poll => if cancelled then Exited else Reading
    case Read(packet) => if packet.Some? then Got(packet.value) else Polling
    case ReadClosed => Exited
    case AddHandler => Added(r.data)
    case SpawnHandler(_) => Polling
  }

  function ApplyReceiver(s: State, step: ReceiverStep): (s': State)
    requires ReceiverEnabled(s, step)
  {
    s.(receiver := NextReceiver(s.receiver, step, s.cancelled),
       waitGroup := s.waitGroup + if step.AddHandler? then 1 else 0,
       handlers := if step.SpawnHandler? then s.handlers[step.h := Decoding(s.receiver.data)] else s.handlers)
  }

  datatype HandlerStep = Lookup | Deliver | Return

  predicate HandlerEnabled(s: State, h: nat, step: HandlerStep) {
    && h in s.handlers
    && match step
       case Lookup => s.handlers[h].Decoding?
       case Deliver => s.handlers[h].Delivering? && s.handlers[h].channel in s.channels
       case Return => s.handlers[h].Returning? && s.waitGroup > 0
  }

  /** `handleResponse` up to the read unlock: the packet is decoded and its channel looked up. */
  function AfterLookup(s: State, data: seq<byte>): (h: Handler) {
    var d := HandlePacket(data);
    if d.ToResponse? && d.apdu.invokeId in s.pending then Delivering(s.pending[d.apdu.invokeId], d.apdu)
    else Returning
  }

  /** The non-blocking send: it drops the reply when the slot is taken. */
  function Offer(channels: map<nat, Channel>, ch: nat, apdu: Apdu): (channels': map<nat, Channel>)
    requires ch in channels
  {
    if channels[ch].closed || channels[ch].buffer.Some? then channels
    else channels[ch := Channel(Some(apdu), false)]
  }

  function NextHandlers(s: State, h: nat, step: HandlerStep): (handlers: map<nat, Handler>)
    requires HandlerEnabled(s, h, step)
  {
    match step
    case Lookup => s.handlers[h := AfterLookup(s, s.handlers[h].data)]
    case Deliver => s.handlers[h := Returning]
    case Return => s.handlers - {h}
  }

  /** A send on a closed channel panics. */
  function ApplyHandler(s: State, h: nat, step: HandlerStep): (s': State)
    requires HandlerEnabled(s, h, step)
  {
    s.(handlers := NextHandlers(s, h, step),
       channels := if step == Deliver then Offer(s.channels, s.handlers[h].channel, s.handlers[h].apdu) else s.channels,
       waitGroup := if step == Return then s.waitGroup - 1 else s.waitGroup,
       panicked := s.panicked || (step == Deliver && s.channels[s.handlers[h].channel].closed))
  }

  // ---- Connect and Close ---------------------------------------------------

  datatype ConnectStep = ConnectBegin | ConnectFail | ConnectSpawn | ConnectEnd

  predicate ConnectEnabled(s: State, step: ConnectStep) {
    match step
    case ConnectBegin => s.connection == Disconnected && s.closers == map[]
    case ConnectFail => s.connection == Opening
    case ConnectSpawn => s.connection == Opening
    case ConnectEnd => s.connection == Starting
  }

  function NextConnection(step: ConnectStep): (c: Connection) {
    match step
    case ConnectBegin => Opening
    case ConnectFail => Disconnected
    case ConnectSpawn => Starting
    case ConnectEnd => Connected
  }

  /** Spawning starts a receiver under a context of its own. */
  function ApplyConnect(s: State, step: ConnectStep): (s': State)
    requires ConnectEnabled(s, step)
  {
    s.(connection := NextConnection(step),
       receiver := if step == ConnectSpawn then Polling else s.receiver,
       cancelled := s.cancelled && step != ConnectSpawn)
  }

  /** A `Close` call either returns at once or becomes a closer. */
  predicate CloseCallEnabled(s: State, c: nat) {
    c !in s.closers && (s.connection == Disconnected || s.connection == Connected)
  }

  function ApplyCloseCall(s: State, c: nat): (s': State)
    requires CloseCallEnabled(s, c)
  {
    if s.connection == Disconnected then s else s.(closers := s.closers[c := Loaded])
  }

  /** Waiting for the receiver and for the wait group are the only points where `Close` blocks. */
  predicate CloserEnabled(s: State, c: nat) {
    && c in s.closers
    && (s.closers[c] == Stopped ==> s.receiver == Exited || s.receiver == NotStarted)
    && (s.closers[c] == ReceiverGone ==> s.waitGroup == 0)
  }

  predicate InPending(s: State, ch: nat) {
    exists k :: k in s.pending && s.pending[k] == ch
  }

  /** Closing a channel twice panics: one already closed, or one met under two IDs. */
  predicate WouldCloseTwice(s: State) {
    || (exists k :: k in s.pending && s.pending[k] in s.channels && s.channels[s.pending[k]].closed)
    || (exists j, k :: j in s.pending && k in s.pending && j != k && s.pending[j] == s.pending[k])
  }

  /** The locked section of `Close`: every pending channel is closed and the map replaced. */
  function CloseAndSwap(s: State): (s': State) {
    s.(channels := map r | r in s.channels :: if InPending(s, r) then s.channels[r].(closed := true) else s.channels[r],
       pending := map[],
       swaps := s.swaps + 1,
       panicked := s.panicked || WouldCloseTwice(s))
  }

  function NextClose(c: CloseStep): (c': CloseStep) {
    match c
    case Loaded => Stored
    case Stored => Stopped
    case Stopped => ReceiverGone
    case ReceiverGone => Drained
    case _ => Swapped
  }

  /**
   In order: the state is stored, the receiver cancelled, its exit and the handlers awaited,
   the pending channels closed and swapped out, and the transport closed.
   */
  function ApplyCloser(s: State, c: nat): (s': State)
    requires CloserEnabled(s, c)
  {
    var step := s.closers[c];
    var t := s.(connection := if step == Loaded then Disconnected else s.connection,
                cancelled := s.cancelled || step == Stored,
                transportClosed := s.transportClosed || step == Swapped,
                closers := if step == Swapped then s.closers - {c} else s.closers[c := NextClose(step)]);
    if step == Drained then CloseAndSwap(t) else t
  }

  // ---- Steps ---------------------------------------------------------------

  datatype Step =
    | NewRequest(r: nat, confirmed: bool)
    | CovTicket                                  // SubscribeCOV takes an invoke ID of its own
    | OfRequest(r: nat, request: RequestStep)
    | OfReceiver(receiver: ReceiverStep)
    | OfHandler(h: nat, handler: HandlerStep)
    | OfConnect(connect: ConnectStep)
    | CloseCall(c: nat)
    | OfCloser(c: nat)

  predicate Enabled(s: State, step: Step) {
    match step
    case NewRequest(r, _) => r !in s.requests
    case CovTicket => true
    case OfRequest(r, x) => RequestEnabled(s, r, x)
    case OfReceiver(x) => ReceiverEnabled(s, x)
    case OfHandler(h, x) => HandlerEnabled(s, h, x)
    case OfConnect(x) => ConnectEnabled(s, x)
    case CloseCall(c) => CloseCallEnabled(s, c)
    case OfCloser(c) => CloserEnabled(s, c)
  }

  function Apply(s: State, step: Step): (s': State)
    requires Enabled(s, step)
  {
    match step
    case NewRequest(r, confirmed) =>
      s.(requests := s.requests[r := Request(if confirmed then Called else UnconfirmedCalled, 0, 0, [])])
    case CovTicket => s.(counter := s.counter + 1)
    case OfRequest(r, x) => ApplyRequest(s, r, x)
    case OfReceiver(x) => ApplyReceiver(s, x)
    case OfHandler(h, x) => ApplyHandler(s, h, x)
    case OfConnect(x) => ApplyConnect(s, x)
    case CloseCall(c) => ApplyCloseCall(s, c)
    case OfCloser(c) => ApplyCloser(s, c)
  }

  // ---- Runs ----------------------------------------------------------------

  /** `states` is what a sequence of steps passes through from `states[0]`. */
  ghost predicate IsTrace(states: seq<State>, steps: seq<Step>) {
    && |states| == |steps| + 1
    && forall i :: 0 <= i < |steps| ==> Enabled(states[i], steps[i]) && states[i + 1] == Apply(states[i], steps[i])
  }

  ghost predicate IsRun(states: seq<State>, steps: seq<Step>) {
    IsTrace(states, steps) && states[0] == INITIAL
  }
}
