/** Interceptor chains: pass-through layers and RTCP forwarders over the terminal interceptor. */
module Interceptor {
  import opened Options
  import opened Seqs

  datatype Content = Rtp(payload: seq<nat>) | Rtcp(packets: seq<seq<nat>>)

  datatype Packet = Packet(now: nat, transport: nat, message: Content)

  /** A chain, outermost layer first. A pass-through layer overrides no method. */
  datatype Chain =
    | Noop(readQueue: seq<Packet>, writeQueue: seq<Packet>)
    | Pass(next: Chain)
    | Forwarder(next: Chain, readQueue: seq<Packet>)

  datatype Op =
    | HandleRead(msg: Packet) | PollRead | HandleWrite(msg: Packet) | PollWrite
    | HandleEvent | PollEvent | HandleTimeout(now: nat) | PollTimeout | Close

  datatype Stepped = Stepped(chain: Chain, out: Option<Packet>)

  function Head(q: seq<Packet>): Option<Packet> {
    if q == [] then None else Some(q[0])
  }

  function Tail(q: seq<Packet>): seq<Packet> {
    if q == [] then [] else q[1..]
  }

  /** What one call does to a chain, and the packet a poll returns. */
  function Step(c: Chain, op: Op): Stepped {
    match c
    case Noop(inbox, outbox) => (
      match op
      case HandleRead(msg) => Stepped(if msg.message.Rtp? then Noop(inbox + [msg], outbox) else c, None)
      case PollRead => Stepped(Noop(Tail(inbox), outbox), Head(inbox))
      case HandleWrite(msg) => Stepped(Noop(inbox, outbox + [msg]), None)
      case PollWrite => Stepped(Noop(inbox, Tail(outbox)), Head(outbox))
      case Close => Stepped(Noop([], []), None)
      case _ => Stepped(c, None))
    case Pass(next) =>
      var r := Step(next, op);
      Stepped(Pass(r.chain), r.out)
    case Forwarder(next, inbox) => (
      if op.PollRead? && inbox != [] then Stepped(Forwarder(next, inbox[1..]), Some(inbox[0]))
      else
        var r := Step(next, op);
        match op
        case HandleRead(msg) =>
          Stepped(Forwarder(r.chain, if msg.message.Rtcp? then inbox + [msg] else inbox), r.out)
        case Close => Stepped(Forwarder(r.chain, []), r.out)
        case _ => Stepped(Forwarder(r.chain, inbox), r.out))
  }

  // ----------------------------------------------------------- the layers as objects

  datatype Kind = NoopKind | PassKind | ForwarderKind

  /** One layer; what it does not override it delegates to `next`. */
  class Layer {
    const kind: Kind
    const next: Layer?
    var readQueue: seq<Packet>
    var writeQueue: seq<Packet>
    ghost const repr: set<Layer>

    ghost predicate Valid()
      decreases repr
    {
      && this in repr
      && (kind.NoopKind? <==> next == null)
      && (next != null ==> next in repr && next.repr < repr && this !in next.repr && next.Valid())
    }

    ghost function View(): Chain
      requires Valid()
      reads repr
      decreases repr
    {
      match kind
      case NoopKind => Noop(readQueue, writeQueue)
      case PassKind => Pass(next.View())
      case ForwarderKind => Forwarder(next.View(), readQueue)
    }

    constructor NewNoop()
      ensures Valid() && fresh(repr) && View() == Noop([], [])
    {
      kind, next, readQueue, writeQueue, repr := NoopKind, null, [], [], {this};
    }

    constructor NewPass(inner: Layer)
      requires inner.Valid()
      ensures Valid() && fresh(repr - inner.repr) && View() == Pass(inner.View())
    {
      kind, next, readQueue, writeQueue, repr := PassKind, inner, [], [], {this} + inner.repr;
    }

    constructor NewForwarder(inner: Layer)
      requires inner.Valid()
      ensures Valid() && fresh(repr - inner.repr) && View() == Forwarder(inner.View(), [])
    {
      kind, next, readQueue, writeQueue, repr := ForwarderKind, inner, [], [], {this} + inner.repr;
    }

    method HandleRead(msg: Packet)
      requires Valid()
      modifies repr
      ensures View() == Step(old(View()), Op.HandleRead(msg)).chain
      decreases repr
    {
      match kind {
        case NoopKind =>
          if msg.message.Rtp? {
            readQueue := readQueue + [msg];
          }
        case PassKind =>
          next.HandleRead(msg);
        case ForwarderKind =>
          if msg.message.Rtcp? {
            readQueue := readQueue + [Packet(msg.now, msg.transport, Rtcp(msg.message.packets))];
          }
          next.HandleRead(msg);
      }
    }

    method PollRead() returns (out: Option<Packet>)
      requires Valid()
      modifies repr
      ensures Stepped(View(), out) == Step(old(View()), Op.PollRead)
      decreases repr
    {
      match kind {
        case NoopKind =>
          out := Head(readQueue);
          readQueue := Tail(readQueue);
        case PassKind =>
          out := next.PollRead();
        case ForwarderKind =>
          if readQueue != [] {
            out := Some(readQueue[0]);
            readQueue := readQueue[1..];
          } else {
            out := next.PollRead();
          }
      }
    }

    method HandleWrite(msg: Packet)
      requires Valid()
      modifies repr
      ensures View() == Step(old(View()), Op.HandleWrite(msg)).chain
      decreases repr
    {
      if kind.NoopKind? {
        writeQueue := writeQueue + [msg];
      } else {
        next.HandleWrite(msg);
      }
    }

    method PollWrite() returns (out: Option<Packet>)
      requires Valid()
      modifies repr
      ensures Stepped(View(), out) == Step(old(View()), Op.PollWrite)
      decreases repr
    {
      if kind.NoopKind? {
        out := Head(writeQueue);
        writeQueue := Tail(writeQueue);
      } else {
        out := next.PollWrite();
      }
    }

    method HandleEvent()
      requires Valid()
      ensures Step(View(), Op.HandleEvent) == Stepped(View(), None)
      decreases repr
    {
      if !kind.NoopKind? {
        next.HandleEvent();
      }
    }

    method PollEvent() returns (out: Option<()>)
      requires Valid()
      ensures out == None && Step(View(), Op.PollEvent) == Stepped(View(), None)
      decreases repr
    {
      out := None;
      if !kind.NoopKind? {
        out := next.PollEvent();
      }
    }

    method HandleTimeout(now: nat)
      requires Valid()
      ensures Step(View(), Op.HandleTimeout(now)) == Stepped(View(), None)
      decreases repr
    {
      if !kind.NoopKind? {
        next.HandleTimeout(now);
      }
    }

    method PollTimeout() returns (out: Option<nat>)
      requires Valid()
      ensures out == None && Step(View(), Op.PollTimeout) == Stepped(View(), None)
      decreases repr
    {
      out := None;
      if !kind.NoopKind? {
        out := next.PollTimeout();
      }
    }

    method CloseAll()
      requires Valid()
      modifies repr
      ensures View() == Step(old(View()), Op.Close).chain
      decreases repr
    {
      match kind {
        case NoopKind =>
          readQueue := [];
          writeQueue := [];
        case PassKind =>
          next.CloseAll();
        case ForwarderKind =>
          readQueue := [];
          next.CloseAll();
      }
    }
  }

  // ------------------------------------------------------------------ runs

  function Final(c: Chain, ops: seq<Op>): Chain
    decreases |ops|
  {
    if ops == [] then c else Final(Step(c, ops[0]).chain, ops[1..])
  }

  /** What each call returns. */
  function Outputs(c: Chain, ops: seq<Op>): seq<Option<Packet>>
    decreases |ops|
  {
    if ops == [] then [] else [Step(c, ops[0]).out] + Outputs(Step(c, ops[0]).chain, ops[1..])
  }

  // --------------------------------------------------- pass-through layers do nothing

  /** The chain without its pass-through layers. */
  function Strip(c: Chain): Chain {
    match c
    case Noop(_, _) => c
    case Pass(next) => Strip(next)
    case Forwarder(next, queue) => Forwarder(Strip(next), queue)
  }

  function Passes(depth: nat, c: Chain): Chain {
    if depth == 0 then c else Pass(Passes(depth - 1, c))
  }

  lemma {:induction false} StripStep(c: Chain, op: Op)
    ensures Step(Strip(c), op) == Stepped(Strip(Step(c, op).chain), Step(c, op).out)
  {
    if !c.Noop? {
      StripStep(c.next, op);
    }
  }

  /** No sequence of calls can tell a chain from the one without its pass-through layers. */
  lemma {:induction false} PassLayersInvisible(c: Chain, ops: seq<Op>)
    ensures Outputs(c, ops) == Outputs(Strip(c), ops)
    ensures Strip(Final(c, ops)) == Final(Strip(c), ops)
    decreases |ops|
  {
    if ops != [] {
      StripStep(c, ops[0]);
      PassLayersInvisible(Step(c, ops[0]).chain, ops[1..]);
    }
  }

  lemma {:induction false} StripPasses(depth: nat, c: Chain)
    ensures Strip(Passes(depth, c)) == Strip(c)
  {
    if depth > 0 {
      StripPasses(depth - 1, c);
    }
  }

  /** Any depth of pass-through layers over the terminal interceptor answers every call as it does. */
  lemma PassesOverNoopAreNoop(depth: nat, ops: seq<Op>)
    ensures Outputs(Passes(depth, Noop([], [])), ops) == Outputs(Noop([], []), ops)
    ensures Strip(Final(Passes(depth, Noop([], [])), ops)) == Final(Noop([], []), ops)
  {
    StripPasses(depth, Noop([], []));
    PassLayersInvisible(Passes(depth, Noop([], [])), ops);
    PassLayersInvisible(Noop([], []), ops);
  }

  // ------------------------------------------------------------------ conservation

  function Rtps(packets: seq<Packet>): seq<Packet> {
    if packets == [] then []
    else (if packets[0].message.Rtp? then [packets[0]] else []) + Rtps(packets[1..])
  }

  function Rtcps(packets: seq<Packet>): seq<Packet> {
    if packets == [] then []
    else (if packets[0].message.Rtcp? then [packets[0]] else []) + Rtcps(packets[1..])
  }

  function Arriving(op: Op): seq<Packet> {
    if op.HandleRead? then [op.msg] else []
  }

  function Delivering(c: Chain, op: Op): seq<Packet> {
    if op.PollRead? && Step(c, op).out.Some? then [Step(c, op).out.value] else []
  }

  function Arrived(ops: seq<Op>): seq<Packet> {
    if ops == [] then [] else Arriving(ops[0]) + Arrived(ops[1..])
  }

  function Delivered(c: Chain, ops: seq<Op>): seq<Packet>
    decreases |ops|
  {
    if ops == [] then [] else Delivering(c, ops[0]) + Delivered(Step(c, ops[0]).chain, ops[1..])
  }

  predicate NoClose(ops: seq<Op>) {
    forall i :: 0 <= i < |ops| ==> !ops[i].Close?
  }

  predicate AllRtp(q: seq<Packet>) {
    forall i :: 0 <= i < |q| ==> q[i].message.Rtp?
  }

  predicate AllRtcp(q: seq<Packet>) {
    forall i :: 0 <= i < |q| ==> q[i].message.Rtcp?
  }

  /** The terminal queues only RTP to read, the forwarders only RTCP. */
  predicate Sorted(c: Chain) {
    match c
    case Noop(inbox, _) => AllRtp(inbox)
    case Pass(next) => Sorted(next)
    case Forwarder(next, inbox) => AllRtcp(inbox) && Sorted(next)
  }

  function Forwarders(c: Chain): nat {
    match c
    case Noop(_, _) => 0
    case Pass(next) => Forwarders(next)
    case Forwarder(next, _) => 1 + Forwarders(next)
  }

  /** The RTP waiting to be read. */
  function RtpQueue(c: Chain): seq<Packet> {
    match c
    case Noop(inbox, _) => inbox
    case Pass(next) => RtpQueue(next)
    case Forwarder(next, _) => RtpQueue(next)
  }

  /** The RTCP waiting to be read, the outermost forwarder's first. */
  function RtcpQueue(c: Chain): seq<Packet> {
    match c
    case Noop(_, _) => []
    case Pass(next) => RtcpQueue(next)
    case Forwarder(next, inbox) => inbox + RtcpQueue(next)
  }

  lemma {:induction false} StepSorted(c: Chain, op: Op)
    requires Sorted(c)
    ensures Sorted(Step(c, op).chain) && Forwarders(Step(c, op).chain) == Forwarders(c)
  {
    if !c.Noop? {
      StepSorted(c.next, op);
    }
  }

  /** RTP: what was queued and what arrives is what is delivered and what stays queued, in order. */
  lemma {:induction false} StepRtp(c: Chain, op: Op)
    requires Sorted(c) && !op.Close?
    ensures RtpQueue(c) + Rtps(Arriving(op)) == Rtps(Delivering(c, op)) + RtpQueue(Step(c, op).chain)
  {
    if !c.Noop? {
      StepRtp(c.next, op);
    }
  }

  lemma {:induction false} NoForwarderNoRtcp(c: Chain)
    requires Forwarders(c) == 0
    ensures RtcpQueue(c) == []
  {
    if !c.Noop? {
      NoForwarderNoRtcp(c.next);
    }
  }

  /** Without a forwarder no RTCP is delivered. */
  lemma {:induction false} NoForwarderDeliversNone(c: Chain, op: Op)
    requires Sorted(c) && Forwarders(c) == 0
    ensures Rtcps(Delivering(c, op)) == []
  {
    if !c.Noop? {
      NoForwarderDeliversNone(c.next, op);
    }
  }

  lemma OnlyForwarderRtcp(c: Chain, op: Op)
    requires Sorted(c) && !op.Close? && c.Forwarder? && Forwarders(c) == 1
    ensures c.readQueue + Rtcps(Arriving(op)) == Rtcps(Delivering(c, op)) + Step(c, op).chain.readQueue
  {
    if op.PollRead? {
      if c.readQueue == [] {
        NoForwarderDeliversNone(c.next, op);
      } else {
        assert Rtcps(Delivering(c, op)) == [c.readQueue[0]];
      }
    }
  }

  /** RTCP through one forwarder: the same. */
  lemma {:induction false} StepRtcp(c: Chain, op: Op)
    requires Sorted(c) && !op.Close? && Forwarders(c) == 1
    ensures RtcpQueue(c) + Rtcps(Arriving(op)) == Rtcps(Delivering(c, op)) + RtcpQueue(Step(c, op).chain)
  {
    if c.Pass? {
      StepRtcp(c.next, op);
    } else {
      StepSorted(c, op);
      NoForwarderNoRtcp(c.next);
      NoForwarderNoRtcp(Step(c, op).chain.next);
      OnlyForwarderRtcp(c, op);
      assert c.readQueue + [] == c.readQueue;
      assert Step(c, op).chain.readQueue + [] == Step(c, op).chain.readQueue;
    }
  }

  function Count(p: Packet, q: seq<Packet>): nat {
    if q == [] then 0 else (if q[0] == p then 1 else 0) + Count(p, q[1..])
  }

  lemma {:induction false} CountAppend(p: Packet, a: seq<Packet>, b: seq<Packet>)
    ensures Count(p, a + b) == Count(p, a) + Count(p, b)
  {
    if a == [] {
      assert a + b == b;
    } else {
      CountAppend(p, a[1..], b);
      assert (a + b)[0] == a[0] && (a + b)[1..] == a[1..] + b;
    }
  }

  /** The copies of `p` a call adds to the forwarders' queues. */
  function Copies(c: Chain, op: Op, p: Packet): nat {
    if op == HandleRead(p) && p.message.Rtcp? then Forwarders(c) else 0
  }

  lemma QueuedCopies(next: Chain, inbox: seq<Packet>, p: Packet)
    ensures Count(p, RtcpQueue(Forwarder(next, inbox))) == Count(p, inbox) + Count(p, RtcpQueue(next))
  {
    CountAppend(p, inbox, RtcpQueue(next));
  }

  /** The forwarder's own queue, when the call also reaches the layers below. */
  lemma OwnCopies(c: Chain, op: Op, p: Packet)
    requires c.Forwarder? && Sorted(c) && !op.Close? && (op.PollRead? ==> c.readQueue == [])
    ensures Count(p, Step(c, op).chain.readQueue)
         == Count(p, c.readQueue) + if op == HandleRead(p) && p.message.Rtcp? then 1 else 0
  {
    if op.HandleRead? && op.msg.message.Rtcp? {
      CountAppend(p, c.readQueue, [op.msg]);
    }
  }

  /** RTCP through any number of forwarders: each adds a copy. */
  lemma {:induction false} StepCopies(c: Chain, op: Op, p: Packet)
    requires Sorted(c) && !op.Close?
    ensures Count(p, RtcpQueue(c)) + Copies(c, op, p)
         == Count(p, Rtcps(Delivering(c, op))) + Count(p, RtcpQueue(Step(c, op).chain))
  {
    if c.Pass? {
      StepCopies(c.next, op, p);
    } else if c.Forwarder? {
      var d := Step(c, op).chain;
      QueuedCopies(c.next, c.readQueue, p);
      QueuedCopies(d.next, d.readQueue, p);
      if op.PollRead? && c.readQueue != [] {
        assert Rtcps(Delivering(c, op)) == [c.readQueue[0]];
      } else {
        StepCopies(c.next, op, p);
        OwnCopies(c, op, p);
      }
    }
  }

  /** Packets to send: any chain hands them to the terminal, which keeps them in order. */
  function WriteQueue(c: Chain): seq<Packet> {
    match c
    case Noop(_, outbox) => outbox
    case Pass(next) => WriteQueue(next)
    case Forwarder(next, _) => WriteQueue(next)
  }

  function Writing(op: Op): seq<Packet> {
    if op.HandleWrite? then [op.msg] else []
  }

  function Sending(c: Chain, op: Op): seq<Packet> {
    if op.PollWrite? && Step(c, op).out.Some? then [Step(c, op).out.value] else []
  }

  lemma {:induction false} StepWrite(c: Chain, op: Op)
    requires !op.Close?
    ensures WriteQueue(c) + Writing(op) == Sending(c, op) + WriteQueue(Step(c, op).chain)
  {
    if !c.Noop? {
      StepWrite(c.next, op);
    }
  }

  // ------------------------------------------------------------- whole runs

  lemma {:induction false} RtpsAppend(a: seq<Packet>, b: seq<Packet>)
    ensures Rtps(a + b) == Rtps(a) + Rtps(b)
  {
    if a == [] {
      assert a + b == b;
    } else {
      RtpsAppend(a[1..], b);
      assert (a + b)[0] == a[0] && (a + b)[1..] == a[1..] + b;
      Regroup(if a[0].message.Rtp? then [a[0]] else [], Rtps(a[1..]), Rtps(b));
    }
  }

  lemma {:induction false} RtcpsAppend(a: seq<Packet>, b: seq<Packet>)
    ensures Rtcps(a + b) == Rtcps(a) + Rtcps(b)
  {
    if a == [] {
      assert a + b == b;
    } else {
      RtcpsAppend(a[1..], b);
      assert (a + b)[0] == a[0] && (a + b)[1..] == a[1..] + b;
      Regroup(if a[0].message.Rtcp? then [a[0]] else [], Rtcps(a[1..]), Rtcps(b));
    }
  }

  /** Two conservation steps in a row are one. */
  lemma Chained(q0: seq<Packet>, in0: seq<Packet>, out0: seq<Packet>, q1: seq<Packet>,
                in1: seq<Packet>, out1: seq<Packet>, q2: seq<Packet>)
    requires q0 + in0 == out0 + q1 && q1 + in1 == out1 + q2
    ensures q0 + (in0 + in1) == (out0 + out1) + q2
  {
    calc {
      q0 + (in0 + in1);
      (q0 + in0) + in1;
      out0 + (q1 + in1);
      (out0 + out1) + q2;
    }
  }

  /** Over any run without a close, whatever the layers: RTP delivered, then queued, is RTP arrived. */
  lemma {:induction false} RtpConserved(c: Chain, ops: seq<Op>)
    requires Sorted(c) && NoClose(ops)
    ensures RtpQueue(c) + Rtps(Arrived(ops)) == Rtps(Delivered(c, ops)) + RtpQueue(Final(c, ops))
    decreases |ops|
  {
    if ops != [] {
      var c', rest := Step(c, ops[0]).chain, ops[1..];
      StepSorted(c, ops[0]);
      StepRtp(c, ops[0]);
      RtpConserved(c', rest);
      RtpsAppend(Arriving(ops[0]), Arrived(rest));
      RtpsAppend(Delivering(c, ops[0]), Delivered(c', rest));
      Chained(RtpQueue(c), Rtps(Arriving(ops[0])), Rtps(Delivering(c, ops[0])), RtpQueue(c'),
              Rtps(Arrived(rest)), Rtps(Delivered(c', rest)), RtpQueue(Final(c', rest)));
    }
  }

  /** With exactly one forwarder anywhere in the chain: RTCP delivered, then queued, is RTCP arrived. */
  lemma {:induction false} RtcpConserved(c: Chain, ops: seq<Op>)
    requires Sorted(c) && NoClose(ops) && Forwarders(c) == 1
    ensures RtcpQueue(c) + Rtcps(Arrived(ops)) == Rtcps(Delivered(c, ops)) + RtcpQueue(Final(c, ops))
    decreases |ops|
  {
    if ops != [] {
      var c', rest := Step(c, ops[0]).chain, ops[1..];
      StepSorted(c, ops[0]);
      StepRtcp(c, ops[0]);
      RtcpConserved(c', rest);
      RtcpsAppend(Arriving(ops[0]), Arrived(rest));
      RtcpsAppend(Delivering(c, ops[0]), Delivered(c', rest));
      Chained(RtcpQueue(c), Rtcps(Arriving(ops[0])), Rtcps(Delivering(c, ops[0])), RtcpQueue(c'),
              Rtcps(Arrived(rest)), Rtcps(Delivered(c', rest)), RtcpQueue(Final(c', rest)));
    }
  }

  /** The copies a run adds, with `f` forwarders. */
  function AddedCopies(f: nat, ops: seq<Op>, p: Packet): nat {
    if ops == [] then 0
    else (if ops[0] == HandleRead(p) && p.message.Rtcp? then f else 0) + AddedCopies(f, ops[1..], p)
  }

  lemma {:induction false} AddedCopiesAre(f: nat, ops: seq<Op>, p: Packet)
    ensures AddedCopies(f, ops, p) == f * Count(p, Rtcps(Arrived(ops)))
  {
    if ops != [] {
      AddedCopiesAre(f, ops[1..], p);
      CountArrived(ops, p);
      Distribute(f, if ops[0] == HandleRead(p) && p.message.Rtcp? then 1 else 0, Count(p, Rtcps(Arrived(ops[1..]))));
    }
  }

  lemma CountArrived(ops: seq<Op>, p: Packet)
    requires ops != []
    ensures Count(p, Rtcps(Arrived(ops)))
         == (if ops[0] == HandleRead(p) && p.message.Rtcp? then 1 else 0) + Count(p, Rtcps(Arrived(ops[1..])))
  {
    RtcpsAppend(Arriving(ops[0]), Arrived(ops[1..]));
    CountAppend(p, Rtcps(Arriving(ops[0])), Rtcps(Arrived(ops[1..])));
  }

  lemma Distribute(f: nat, x: nat, y: nat)
    ensures f * (x + y) == f * x + f * y
  {
  }

  lemma CountDelivered(c: Chain, ops: seq<Op>, p: Packet)
    requires ops != []
    ensures Count(p, Rtcps(Delivered(c, ops)))
         == Count(p, Rtcps(Delivering(c, ops[0]))) + Count(p, Rtcps(Delivered(Step(c, ops[0]).chain, ops[1..])))
  {
    var later := Delivered(Step(c, ops[0]).chain, ops[1..]);
    RtcpsAppend(Delivering(c, ops[0]), later);
    CountAppend(p, Rtcps(Delivering(c, ops[0])), Rtcps(later));
  }

  lemma {:induction false} RunCopies(c: Chain, ops: seq<Op>, p: Packet)
    requires Sorted(c) && NoClose(ops)
    ensures Count(p, RtcpQueue(c)) + AddedCopies(Forwarders(c), ops, p)
         == Count(p, Rtcps(Delivered(c, ops))) + Count(p, RtcpQueue(Final(c, ops)))
    decreases |ops|
  {
    if ops != [] {
      StepSorted(c, ops[0]);
      StepCopies(c, ops[0], p);
      CountDelivered(c, ops, p);
      RunCopies(Step(c, ops[0]).chain, ops[1..], p);
    }
  }

  /** Every RTCP packet that arrives is delivered, or waits, once for each forwarder in the chain. */
  lemma CopiesPerForwarder(c: Chain, ops: seq<Op>, p: Packet)
    requires Sorted(c) && NoClose(ops)
    ensures Count(p, RtcpQueue(c)) + Forwarders(c) * Count(p, Rtcps(Arrived(ops)))
         == Count(p, Rtcps(Delivered(c, ops))) + Count(p, RtcpQueue(Final(c, ops)))
  {
    RunCopies(c, ops, p);
    AddedCopiesAre(Forwarders(c), ops, p);
  }

  function Written(ops: seq<Op>): seq<Packet> {
    if ops == [] then [] else Writing(ops[0]) + Written(ops[1..])
  }

  function SentOut(c: Chain, ops: seq<Op>): seq<Packet>
    decreases |ops|
  {
    if ops == [] then [] else Sending(c, ops[0]) + SentOut(Step(c, ops[0]).chain, ops[1..])
  }

  /** Whatever the layers, packets to send leave in order, none lost and none repeated. */
  lemma {:induction false} WritesConserved(c: Chain, ops: seq<Op>)
    requires NoClose(ops)
    ensures WriteQueue(c) + Written(ops) == SentOut(c, ops) + WriteQueue(Final(c, ops))
    decreases |ops|
  {
    if ops != [] {
      var c', rest := Step(c, ops[0]).chain, ops[1..];
      StepWrite(c, ops[0]);
      WritesConserved(c', rest);
      Chained(WriteQueue(c), Writing(ops[0]), Sending(c, ops[0]), WriteQueue(c'),
              Written(rest), SentOut(c', rest), WriteQueue(Final(c', rest)));
    }
  }

  // --------------------------------------------------------- empty chains and close

  predicate Empty(c: Chain) {
    RtpQueue(c) == [] && RtcpQueue(c) == [] && WriteQueue(c) == []
  }

  /** A closed chain is as empty as a new one, so everything above starts over. */
  lemma {:induction false} CloseEmpties(c: Chain)
    ensures Empty(Step(c, Close).chain) && Sorted(Step(c, Close).chain)
    ensures Forwarders(Step(c, Close).chain) == Forwarders(c)
  {
    if !c.Noop? {
      CloseEmpties(c.next);
    }
  }

  /** Polling finds nothing exactly when nothing is queued. */
  lemma {:induction false} PollFindsNothingIff(c: Chain)
    ensures Step(c, PollRead).out.None? <==> RtpQueue(c) == [] && RtcpQueue(c) == []
  {
    if !c.Noop? {
      PollFindsNothingIff(c.next);
    }
  }

  lemma Unpadded(a: seq<Packet>, b: seq<Packet>)
    requires [] + a == b + []
    ensures a == b
  {
    assert [] + a == a && b + [] == b;
  }

  /** RTCP comes first, the outermost forwarder's before the others', and RTP only when there is none. */
  lemma {:induction false} PollTakesRtcpFirst(c: Chain)
    ensures Step(c, PollRead).out == Head(RtcpQueue(c) + RtpQueue(c))
  {
    if c.Pass? {
      PollTakesRtcpFirst(c.next);
    } else if c.Forwarder? {
      PollTakesRtcpFirst(c.next);
      if c.readQueue == [] {
        assert [] + RtcpQueue(c.next) == RtcpQueue(c.next);
      }
    }
  }

  /** An empty chain with one forwarder, polled until nothing is left, has delivered exactly what arrived. */
  lemma PolledDry(c: Chain, ops: seq<Op>)
    requires Empty(c) && Sorted(c) && Forwarders(c) == 1 && NoClose(ops)
    requires Step(Final(c, ops), PollRead).out.None?
    ensures Rtps(Delivered(c, ops)) == Rtps(Arrived(ops))
    ensures Rtcps(Delivered(c, ops)) == Rtcps(Arrived(ops))
  {
    RtpConserved(c, ops);
    RtcpConserved(c, ops);
    PollFindsNothingIff(Final(c, ops));
    Unpadded(Rtps(Arrived(ops)), Rtps(Delivered(c, ops)));
    Unpadded(Rtcps(Arrived(ops)), Rtcps(Delivered(c, ops)));
  }

  /** Putting a forwarder on a chain leaves the RTP it delivers unchanged. */
  lemma ForwarderKeepsRtp(c: Chain, plain: seq<Op>, forwarded: seq<Op>)
    requires Empty(c) && Sorted(c) && NoClose(plain) && NoClose(forwarded)
    requires Rtps(Arrived(plain)) == Rtps(Arrived(forwarded))
    requires Step(Final(c, plain), PollRead).out.None?
    requires Step(Final(Forwarder(c, []), forwarded), PollRead).out.None?
    ensures Rtps(Delivered(Forwarder(c, []), forwarded)) == Rtps(Delivered(c, plain))
  {
    RtpConserved(c, plain);
    RtpConserved(Forwarder(c, []), forwarded);
    PollFindsNothingIff(Final(c, plain));
    PollFindsNothingIff(Final(Forwarder(c, []), forwarded));
    Unpadded(Rtps(Arrived(plain)), Rtps(Delivered(c, plain)));
    Unpadded(Rtps(Arrived(forwarded)), Rtps(Delivered(Forwarder(c, []), forwarded)));
  }
}
