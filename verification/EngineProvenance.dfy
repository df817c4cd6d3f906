/**
 Where replies come from: every reply a request takes was read off the wire earlier in the
 same run, and no more replies are taken than packets were read.
 */
module EngineProvenance {
  import opened Bytes
  import opened Packets
  import opened Maps
  import opened Engine

  /** The packet that a step reads, if any. */
  function PacketOf(step: Step): (p: Option<seq<byte>>) {
    if step.OfReceiver? && step.receiver.Read? then step.receiver.packet else None
  }

  function PacketsRead(steps: seq<Step>): (ps: set<seq<byte>>) {
    set k | 0 <= k < |steps| && PacketOf(steps[k]).Some? :: PacketOf(steps[k]).value
  }

  // ---- Everything in the engine was read -----------------------------------

  /** Some packet among `ps` is dispatched as this reply. */
  ghost predicate Origin(ps: set<seq<byte>>, a: Apdu) {
    exists d :: d in ps && HandlePacket(d) == ToResponse(a)
  }

  predicate ReceiverSourced(r: Receiver, ps: set<seq<byte>>) {
    r.Got? || r.Added? ==> r.data in ps
  }

  ghost predicate HandlerSourced(h: Handler, ps: set<seq<byte>>) {
    match h
    case Decoding(data) => data in ps
    case Delivering(_, a) => Origin(ps, a)
    case Returning => true
  }

  ghost predicate ChannelSourced(c: Channel, ps: set<seq<byte>>) {
    c.buffer.Some? ==> Origin(ps, c.buffer.value)
  }

  ghost predicate RequestSourced(q: Request, ps: set<seq<byte>>) {
    forall a :: a in q.got ==> Origin(ps, a)
  }

  ghost predicate Sourced(s: State, ps: set<seq<byte>>) {
    && ReceiverSourced(s.receiver, ps)
    && (forall h :: h in s.handlers ==> HandlerSourced(s.handlers[h], ps))
    && (forall c :: c in s.channels ==> ChannelSourced(s.channels[c], ps))
    && (forall r :: r in s.requests ==> RequestSourced(s.requests[r], ps))
  }

  lemma OriginGrows(ps: set<seq<byte>>, ps': set<seq<byte>>, a: Apdu)
    requires ps <= ps' && Origin(ps, a)
    ensures Origin(ps', a)
  {
  }

  lemma SourcedGrows(s: State, ps: set<seq<byte>>, ps': set<seq<byte>>)
    requires ps <= ps' && Sourced(s, ps)
    ensures Sourced(s, ps')
  {
    forall a | Origin(ps, a) ensures Origin(ps', a) { OriginGrows(ps, ps', a); }
    hide Origin;
  }

  lemma TakenIsSourced(s: State, r: nat, step: RequestStep, ps: set<seq<byte>>)
    requires Sourced(s, ps) && RequestEnabled(s, r, step)
    ensures RequestSourced(NextRequest(s, r, step), ps)
  {
    hide Origin, NextPhase, CanStep;
    assert RequestSourced(s.requests[r], ps);
    if step == Receive {
      assert ChannelSourced(s.channels[r], ps);
    }
  }

  lemma LeftIsSourced(s: State, r: nat, step: RequestStep, ps: set<seq<byte>>)
    requires Sourced(s, ps) && RequestEnabled(s, r, step)
    ensures forall c :: c in NextChannels(s, r, step) ==> ChannelSourced(NextChannels(s, r, step)[c], ps)
  {
    hide Origin, CanStep, HandlerSourced, RequestSourced, ReceiverSourced;
  }

  lemma RequestKeepsSource(s: State, r: nat, step: RequestStep, ps: set<seq<byte>>)
    requires Sourced(s, ps) && RequestEnabled(s, r, step)
    ensures Sourced(ApplyRequest(s, r, step), ps)
  {
    TakenIsSourced(s, r, step, ps);
    LeftIsSourced(s, r, step, ps);
    hide RequestSourced, ChannelSourced, HandlerSourced, ReceiverSourced, NextRequest, NextChannels, NextPending,
      NextMetrics, CanStep;
  }

  lemma ReceiverKeepsSource(s: State, step: ReceiverStep, ps: set<seq<byte>>)
    requires Sourced(s, ps) && ReceiverEnabled(s, step)
    requires step.Read? && step.packet.Some? ==> step.packet.value in ps
    ensures Sourced(ApplyReceiver(s, step), ps)
  {
    hide Origin, ChannelSourced, RequestSourced;
  }

  lemma LookupKeepsSource(s: State, data: seq<byte>, ps: set<seq<byte>>)
    requires data in ps
    ensures HandlerSourced(AfterLookup(s, data), ps)
  {
    hide HandlePacket;
  }

  lemma HandlerKeepsSource(s: State, h: nat, step: HandlerStep, ps: set<seq<byte>>)
    requires Sourced(s, ps) && HandlerEnabled(s, h, step)
    ensures Sourced(ApplyHandler(s, h, step), ps)
  {
    assert HandlerSourced(s.handlers[h], ps);
    if step == Lookup { LookupKeepsSource(s, s.handlers[h].data, ps); }
    hide Origin, AfterLookup, RequestSourced;
  }

  lemma CloserKeepsSource(s: State, c: nat, ps: set<seq<byte>>)
    requires Sourced(s, ps) && CloserEnabled(s, c)
    ensures Sourced(ApplyCloser(s, c), ps)
  {
    hide Origin, HandlerSourced, RequestSourced, InPending, WouldCloseTwice, ReceiverSourced;
  }

  lemma OtherKeepsSource(s: State, step: Step, ps: set<seq<byte>>)
    requires Sourced(s, ps) && Enabled(s, step)
    requires step.NewRequest? || step.CovTicket? || step.OfConnect? || step.CloseCall?
    ensures Sourced(Apply(s, step), ps)
  {
    hide Origin, HandlerSourced, ChannelSourced, RequestEnabled, ApplyRequest, ReceiverEnabled, ApplyReceiver,
      HandlerEnabled, ApplyHandler, CloserEnabled, ApplyCloser;
    if step.NewRequest? {
    } else if step.OfConnect? {
    } else {
    }
  }

  lemma StepKeepsSource(s: State, step: Step, ps: set<seq<byte>>)
    requires Sourced(s, ps) && Enabled(s, step)
    requires PacketOf(step).Some? ==> PacketOf(step).value in ps
    ensures Sourced(Apply(s, step), ps)
  {
    hide Sourced, RequestEnabled, ApplyRequest, ReceiverEnabled, ApplyReceiver, HandlerEnabled, ApplyHandler,
      CloserEnabled, ApplyCloser;
    match step
    case OfRequest(r, x) => RequestKeepsSource(s, r, x, ps);
    case OfReceiver(x) => ReceiverKeepsSource(s, x, ps);
    case OfHandler(h, x) => HandlerKeepsSource(s, h, x, ps);
    case OfCloser(c) => CloserKeepsSource(s, c, ps);
    case _ => OtherKeepsSource(s, step, ps);
  }

  lemma {:induction false} RunIsSourced(states: seq<State>, steps: seq<Step>, i: nat)
    requires IsRun(states, steps) && i < |states|
    ensures Sourced(states[i], PacketsRead(steps[..i]))
  {
    if i > 0 {
      RunIsSourced(states, steps, i - 1);
      hide Enabled, Apply, Sourced, PacketOf;
      var step := steps[i - 1];
      PacketsGrow(steps, i);
      SourcedGrows(states[i - 1], PacketsRead(steps[..i - 1]), PacketsRead(steps[..i]));
      StepKeepsSource(states[i - 1], step, PacketsRead(steps[..i]));
    }
  }

  lemma PacketsGrow(steps: seq<Step>, i: nat)
    requires 0 < i <= |steps|
    ensures PacketsRead(steps[..i - 1]) <= PacketsRead(steps[..i])
    ensures PacketOf(steps[i - 1]).Some? ==> PacketOf(steps[i - 1]).value in PacketsRead(steps[..i])
  {
    hide PacketOf;
    var before, after := steps[..i - 1], steps[..i];
    forall d | d in PacketsRead(before) ensures d in PacketsRead(after) {
      var k :| 0 <= k < |before| && PacketOf(before[k]).Some? && PacketOf(before[k]).value == d;
      assert after[k] == before[k];
    }
    assert after[i - 1] == steps[i - 1];
  }

  /** In every run, each reply a request has taken is what some packet read before it is dispatched as. */
  lemma RepliesWereRead(states: seq<State>, steps: seq<Step>, i: nat, r: nat, a: Apdu)
    requires IsRun(states, steps) && i < |states| && r in states[i].requests && a in states[i].requests[r].got
    ensures exists k :: 0 <= k < i && PacketOf(steps[k]).Some?
                        && HandlePacket(PacketOf(steps[k]).value) == ToResponse(a)
  {
    RunIsSourced(states, steps, i);
    hide IsTrace, PacketOf, HandlePacket;
    assert RequestSourced(states[i].requests[r], PacketsRead(steps[..i]));
    var d :| d in PacketsRead(steps[..i]) && HandlePacket(d) == ToResponse(a);
    var k :| 0 <= k < i && PacketOf(steps[..i][k]).Some? && PacketOf(steps[..i][k]).value == d;
    assert steps[..i][k] == steps[k];
  }

  // ---- Nothing is duplicated -----------------------------------------------

  /** What each place holds of packets read and not yet dropped. */
  function ReceiverLoad(r: Receiver): (n: nat) {
    if r.Got? || r.Added? then 1 else 0
  }

  function HandlerLoad(h: Handler): (n: nat) {
    if h.Returning? then 0 else 1
  }

  function ChannelLoad(c: Channel): (n: nat) {
    if c.buffer.Some? then 1 else 0
  }

  function RequestLoad(q: Request): (n: nat) {
    |q.got|
  }

  ghost function Load(s: State): (n: nat) {
    ReceiverLoad(s.receiver) + Weight(s.handlers, HandlerLoad) + Weight(s.channels, ChannelLoad)
    + Weight(s.requests, RequestLoad)
  }

  function Reads(steps: seq<Step>): (n: nat) {
    if steps == [] then 0
    else Reads(steps[..|steps| - 1]) + if PacketOf(steps[|steps| - 1]).Some? then 1 else 0
  }

  /** A receipt moves the load of a channel to its request. */
  lemma RequestMovesLoad(s: State, r: nat, step: RequestStep)
    requires RequestEnabled(s, r, step)
    ensures var taken := if step == Receive && Buffered(s, r).Some? then 1 else 0;
            && RequestLoad(NextRequest(s, r, step)) == RequestLoad(s.requests[r]) + taken
            && Weight(NextChannels(s, r, step), ChannelLoad) + taken <= Weight(s.channels, ChannelLoad)
  {
    hide NextPhase, CanStep;
    if step == Allocate {
      WeightUpdate(s.channels, ChannelLoad, r, Channel(None, false));
    } else if step == Receive {
      WeightUpdate(s.channels, ChannelLoad, r, s.channels[r].(buffer := None));
    }
  }

  lemma RequestKeepsLoad(s: State, r: nat, step: RequestStep)
    requires RequestEnabled(s, r, step)
    ensures Load(ApplyRequest(s, r, step)) <= Load(s)
  {
    RequestMovesLoad(s, r, step);
    hide NextRequest, NextChannels, NextMetrics, NextPending, CanStep, RequestLoad, ChannelLoad, HandlerLoad,
      ReceiverLoad;
    WeightUpdate(s.requests, RequestLoad, r, NextRequest(s, r, step));
  }

  lemma ReceiverKeepsLoad(s: State, step: ReceiverStep)
    requires ReceiverEnabled(s, step)
    ensures Load(ApplyReceiver(s, step)) <= Load(s) + if step.Read? && step.packet.Some? then 1 else 0
  {
    if step.SpawnHandler? { WeightUpdate(s.handlers, HandlerLoad, step.h, Decoding(s.receiver.data)); }
  }

  lemma HandlerKeepsLoad(s: State, h: nat, step: HandlerStep)
    requires HandlerEnabled(s, h, step)
    ensures Load(ApplyHandler(s, h, step)) <= Load(s)
  {
    hide AfterLookup;
    match step
    case Lookup => WeightUpdate(s.handlers, HandlerLoad, h, AfterLookup(s, s.handlers[h].data));
    case Deliver =>
      WeightUpdate(s.handlers, HandlerLoad, h, Returning);
      WeightUpdate(s.channels, ChannelLoad, s.handlers[h].channel, Channel(Some(s.handlers[h].apdu), false));
    case Return => WeightRemove(s.handlers, HandlerLoad, h);
  }

  lemma SwapKeepsLoad(s: State)
    ensures Load(CloseAndSwap(s)) == Load(s)
  {
    hide InPending, WouldCloseTwice;
    WeightSame(s.channels, CloseAndSwap(s).channels, ChannelLoad);
  }

  lemma CloserKeepsLoad(s: State, c: nat)
    requires CloserEnabled(s, c)
    ensures Load(ApplyCloser(s, c)) == Load(s)
  {
    hide CloseAndSwap;
    if s.closers[c] == Drained { SwapKeepsLoad(s.(closers := s.closers[c := Swapped])); }
  }

  lemma OtherKeepsLoad(s: State, step: Step)
    requires Enabled(s, step)
    requires step.NewRequest? || step.CovTicket? || step.OfConnect? || step.CloseCall?
    ensures Load(Apply(s, step)) <= Load(s)
  {
    hide RequestEnabled, ApplyRequest, ReceiverEnabled, ApplyReceiver, HandlerEnabled, ApplyHandler, CloserEnabled,
      ApplyCloser;
    if step.NewRequest? {
      var q := Request(if step.confirmed then Called else UnconfirmedCalled, 0, 0, []);
      WeightUpdate(s.requests, RequestLoad, step.r, q);
    } else if step.OfConnect? {
    } else {
    }
  }

  /** A read packet becomes at most one reply, in one place at a time. */
  lemma StepKeepsLoad(s: State, step: Step)
    requires Enabled(s, step)
    ensures Load(Apply(s, step)) <= Load(s) + if PacketOf(step).Some? then 1 else 0
  {
    hide Load, RequestEnabled, ApplyRequest, ReceiverEnabled, ApplyReceiver, HandlerEnabled, ApplyHandler,
      CloserEnabled, ApplyCloser;
    match step
    case OfRequest(r, x) => RequestKeepsLoad(s, r, x);
    case OfReceiver(x) => ReceiverKeepsLoad(s, x);
    case OfHandler(h, x) => HandlerKeepsLoad(s, h, x);
    case OfCloser(c) => CloserKeepsLoad(s, c);
    case _ => OtherKeepsLoad(s, step);
  }

  lemma {:induction false} LoadIsRead(states: seq<State>, steps: seq<Step>, i: nat)
    requires IsRun(states, steps) && i < |states|
    ensures Load(states[i]) <= Reads(steps[..i])
  {
    if i > 0 {
      hide Enabled, Apply, Load, PacketOf;
      LoadIsRead(states, steps, i - 1);
      StepKeepsLoad(states[i - 1], steps[i - 1]);
      assert steps[..i][..i - 1] == steps[..i - 1];
    }
  }

  /** In every run the replies that requests have taken never outnumber the packets read. */
  lemma RepliesNeverOutnumberReads(states: seq<State>, steps: seq<Step>, i: nat)
    requires IsRun(states, steps) && i < |states|
    ensures Weight(states[i].requests, RequestLoad) <= Reads(steps[..i])
  {
    LoadIsRead(states, steps, i);
  }
}
