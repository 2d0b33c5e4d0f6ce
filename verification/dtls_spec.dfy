/** The DTLS handshake state machine of section 4.2.4 of RFC 6347, as a function on connection values.

    Generating a flight, parsing the cached messages and reading the clock are an arbitrary
    environment: an `Environment` may answer every call differently, because each question carries
    the number of questions asked before it. */
module Dtls {
  import opened Options

  datatype HandshakeState = Errored | Preparing | Sending | Waiting | Finished

  datatype Flight = Flight0 | Flight1 | Flight2 | Flight3 | Flight4 | Flight5 | Flight6

  predicate IsLastSendFlight(f: Flight) { f == Flight6 }

  predicate IsLastRecvFlight(f: Flight) { f == Flight5 }

  predicate HasRetransmit(f: Flight) { f != Flight2 }

  datatype Content = Handshake(messageSequence: nat, body: nat) | Alert(code: nat) | Plain(body: nat)

  datatype Packet = Packet(epoch: nat, content: Content)

  datatype Generated = Packets(packets: seq<Packet>) | GenerateFailed(alert: Option<nat>, fatal: bool)

  datatype Parsed = Next(flight: Flight) | ParseFailed(alert: Option<nat>, fatal: bool)

  datatype Environment = Environment(
    generate: (Flight, nat) -> Generated,
    parse: (Flight, nat) -> Parsed,
    clock: nat -> nat)

  datatype Config = Config(maximumRetransmitNumber: nat, retransmitInterval: nat, initialEpoch: nat)

  /** The history of flights: for every `prepare`, the writes of the flight it buffered. */
  type Rounds = seq<seq<seq<Packet>>>

  function Log(rounds: Rounds, packets: seq<Packet>): Rounds {
    if rounds == [] then [[packets]]
    else rounds[|rounds| - 1 := rounds[|rounds| - 1] + [packets]]
  }

  /** A request for a flight, with the number of questions asked before it. */
  datatype Ask = Ask(flight: Flight, asked: nat)

  /** The latest step that led into or stayed in Waiting. */
  datatype Entry = NeverWaited | BySend | ByRearm | ByConsume

  datatype Conn = Conn(
    config: Config,
    state: HandshakeState,
    completed: bool,
    timer: Option<nat>,
    retransmitCount: nat,
    flight: Flight,
    flights: Option<seq<Packet>>,
    retransmit: bool,
    handshakeRx: bool,
    sendSequence: nat,
    localEpoch: nat,
    outgoing: seq<Packet>,
    asked: nat,
    // History, read by no step.
    rounds: Rounds,
    entry: Entry,
    raised: seq<Packet>,
    prepared: seq<Ask>)

  /** Where a step leads; `None` is an error, which leaves the machine's state as it was. */
  datatype Leg = Leg(conn: Conn, next: Option<HandshakeState>)

  datatype Outcome = Outcome(conn: Conn, ok: bool)

  function Notify(c: Conn, alert: Option<nat>): Conn {
    match alert
    case None => c
    case Some(code) =>
      var packet := Packet(c.localEpoch, Alert(code));
      c.(outgoing := c.outgoing + [packet], raised := c.raised + [packet])
  }

  // ------------------------------------------------------------------- prepare

  const U16: nat := 0x1_0000

  function HandshakesIn(packets: seq<Packet>): nat {
    if packets == [] then 0
    else HandshakesIn(packets[..|packets| - 1]) + (if packets[|packets| - 1].content.Handshake? then 1 else 0)
  }

  /** Packet `i` of a flight once its epoch is offset and its message numbered. */
  function Stamped(packets: seq<Packet>, i: nat, epoch: nat, sequence: nat): Packet
    requires i < |packets|
  {
    var p := packets[i];
    Packet(
      p.epoch + epoch,
      if p.content.Handshake? then
        p.content.(messageSequence := (sequence + HandshakesIn(packets[..i])) % U16)
      else p.content)
  }

  /** `q` is `p` at an epoch offset by `epoch`, with at most its message number changed. */
  predicate SameBut(p: Packet, q: Packet, epoch: nat) {
    && q.epoch == p.epoch + epoch
    && (if p.content.Handshake? then q.content.Handshake? && q.content.body == p.content.body
        else q.content == p.content)
  }

  function Numbered(packets: seq<Packet>, epoch: nat, sequence: nat): (r: seq<Packet>)
    ensures |r| == |packets|
    ensures forall i :: 0 <= i < |r| ==> SameBut(packets[i], r[i], epoch)
  {
    seq(|packets|, i requires 0 <= i < |packets| => Stamped(packets, i, epoch, sequence))
  }

  lemma {:induction false} HandshakesBetween(packets: seq<Packet>, i: nat, j: nat)
    requires i <= j <= |packets| && forall k :: i <= k < j ==> !packets[k].content.Handshake?
    ensures HandshakesIn(packets[..j]) == HandshakesIn(packets[..i])
    decreases j
  {
    if i < j {
      HandshakesBetween(packets, i, j - 1);
      assert packets[..j][..j - 1] == packets[..j - 1];
    }
  }

  /** Handshake messages of a flight are numbered one after the other from where the last flight ended. */
  lemma NumbersConsecutive(packets: seq<Packet>, epoch: nat, sequence: nat, i: nat, j: nat)
    requires i < j < |packets| && packets[i].content.Handshake? && packets[j].content.Handshake?
    requires forall k :: i < k < j ==> !packets[k].content.Handshake?
    ensures var flight := Numbered(packets, epoch, sequence);
      flight[j].content.messageSequence == (flight[i].content.messageSequence + 1) % U16
    ensures (forall k :: 0 <= k < i ==> !packets[k].content.Handshake?) ==>
      Numbered(packets, epoch, sequence)[i].content.messageSequence == sequence % U16
  {
    HandshakesBetween(packets, i + 1, j);
    assert packets[..i + 1][..i] == packets[..i];
    if forall k :: 0 <= k < i ==> !packets[k].content.Handshake? {
      HandshakesBetween(packets, 0, i);
    }
    WrapNumber(sequence + HandshakesIn(packets[..i]));
  }

  lemma WrapNumber(n: nat)
    ensures (n + 1) % U16 == (n % U16 + 1) % U16
  {
  }

  /** The largest of `epoch` and the epochs of the packets. */
  function TopEpoch(packets: seq<Packet>, epoch: nat): nat {
    if packets == [] then epoch
    else
      var rest := TopEpoch(packets[..|packets| - 1], epoch);
      if packets[|packets| - 1].epoch > rest then packets[|packets| - 1].epoch else rest
  }

  lemma {:induction false} TopEpochIsLargest(packets: seq<Packet>, epoch: nat)
    ensures var top := TopEpoch(packets, epoch);
      && top >= epoch
      && (forall i :: 0 <= i < |packets| ==> packets[i].epoch <= top)
      && (top == epoch || exists i :: 0 <= i < |packets| && packets[i].epoch == top)
  {
    if packets != [] {
      TopEpochIsLargest(packets[..|packets| - 1], epoch);
    }
  }

  /** What `generate` does to the numbering state, whatever it returns. */
  function GenerateEffect(c: Conn): Conn {
    match c.flight
    case Flight0 => c.(localEpoch := 0)
    case Flight1 => c.(localEpoch := 0)
    case Flight2 => c.(sendSequence := 0)
    case _ => c
  }

  function Buffer(c: Conn, packets: seq<Packet>): Conn {
    var numbered := Numbered(packets, c.config.initialEpoch, c.sendSequence);
    var top := TopEpoch(numbered, c.config.initialEpoch);
    c.(flights := Some(numbered),
       sendSequence := c.sendSequence + HandshakesIn(packets),
       localEpoch := if top != c.config.initialEpoch then top else c.localEpoch)
  }

  /** The connection once `prepare` has dropped the old flight and asked for a new one. */
  function Restarted(c: Conn): Conn {
    GenerateEffect(Dropped(c))
  }

  function Dropped(c: Conn): Conn {
    c.(flights := None,
       retransmitCount := 0,
       retransmit := HasRetransmit(c.flight),
       asked := c.asked + 1,
       rounds := c.rounds + [[]],
       prepared := c.prepared + [Ask(c.flight, c.asked)])
  }

  function Prepare(env: Environment, c: Conn): Leg {
    match env.generate(c.flight, c.asked)
    case Packets(packets) => Leg(Buffer(Restarted(c), packets), Some(Sending))
    case GenerateFailed(alert, fatal) => Leg(Notify(Restarted(c), alert), if fatal then None else Some(Sending))
  }

  // -------------------------------------------------------- send, wait, finish

  function Send(env: Environment, c: Conn): Leg {
    var d := if c.flights.Some? then
      c.(outgoing := c.outgoing + c.flights.value, rounds := Log(c.rounds, c.flights.value))
    else c;
    if IsLastSendFlight(c.flight) then Leg(d, Some(Finished)) else
    Leg(d.(timer := Some(env.clock(c.asked) + c.config.retransmitInterval), asked := c.asked + 1, entry := BySend),
        Some(Waiting))
  }

  function Consume(c: Conn): Conn {
    c.(handshakeRx := false, timer := None, asked := c.asked + 1)
  }

  function Wait(env: Environment, c: Conn): Leg {
    if !c.handshakeRx then Leg(c, Some(Waiting)) else
    var d := Consume(c).(entry := ByConsume);
    match env.parse(c.flight, c.asked)
    case ParseFailed(alert, fatal) => Leg(Notify(d, alert), if fatal then None else Some(Waiting))
    case Next(flight) =>
      if IsLastRecvFlight(flight) && c.flight == flight then Leg(d, Some(Finished))
      else Leg(d.(flight := flight), Some(Preparing))
  }

  function Finish(env: Environment, c: Conn): Leg {
    if !c.handshakeRx then Leg(c, Some(Finished)) else
    match env.parse(c.flight, c.asked)
    case ParseFailed(alert, fatal) => Leg(Notify(Consume(c), alert), if fatal then None else Some(Finished))
    case Next(_) => Leg(Consume(c), Some(Finished))
  }

  // ------------------------------------------------------------- the main loop

  datatype Iteration = Return(outcome: Outcome) | Again(conn: Conn)

  function StepOf(env: Environment, c: Conn): Leg {
    match c.state
    case Preparing => Prepare(env, c)
    case Sending => Send(env, c)
    case Waiting => Wait(env, c)
    case Finished => Finish(env, c)
    case Errored => Leg(c, None)
  }

  /** One iteration of the loop of `handshake`. */
  function Iterate(env: Environment, c: Conn): Iteration {
    if c.state == Finished && !c.completed then Return(Outcome(c.(completed := true), true)) else
    var leg := StepOf(env, c);
    if leg.next.None? then Return(Outcome(leg.conn, false)) else
    var d := leg.conn.(state := leg.next.value);
    if c.state == Waiting && d.state == Waiting then Return(Outcome(d, true)) else Again(d)
  }

  function StateRank(s: HandshakeState): nat {
    match s
    case Preparing => 3
    case Sending => 2
    case Waiting => 1
    case _ => 0
  }

  /** The pending-packets token outweighs the state, since consuming it may lead back to Preparing. */
  function Measure(c: Conn): nat {
    (if c.handshakeRx then 4 else 0) + StateRank(c.state)
  }

  lemma IterationDecreases(env: Environment, c: Conn)
    requires !c.completed
    ensures Iterate(env, c).Again? ==> !Iterate(env, c).conn.completed && Measure(Iterate(env, c).conn) < Measure(c)
  {
  }

  function HandshakeLoop(env: Environment, c: Conn): Outcome
    requires !c.completed
    decreases Measure(c)
  {
    IterationDecreases(env, c);
    match Iterate(env, c)
    case Return(outcome) => outcome
    case Again(d) => HandshakeLoop(env, d)
  }

  /** What an expired timer makes of the connection before the loop runs again, if it does. */
  function TimedOut(env: Environment, c: Conn): Option<Conn> {
    match c.state
    case Waiting =>
      if c.retransmit then
        var n := c.retransmitCount + 1;
        Some(c.(retransmitCount := n, state := if n > c.config.maximumRetransmitNumber then Errored else Sending))
      else
        Some(c.(timer := Some(env.clock(c.asked) + c.config.retransmitInterval),
                asked := c.asked + 1, entry := ByRearm))
    case Finished => Some(c.(state := Sending))
    case _ => None
  }

  function HandshakeTimeout(env: Environment, c: Conn): Outcome
    requires !c.completed
  {
    match TimedOut(env, c)
    case None => Outcome(c, true)
    case Some(d) => HandshakeLoop(env, d)
  }

  // --------------------------------------------- operations of the endpoint

  /** What reading one datagram, or draining the queued packets, did outside the machine: whether
      handshake packets arrived, which alerts were raised, and whether it succeeded. */
  datatype Incoming = Incoming(handshake: bool, alerts: seq<nat>, ok: bool)

  function AlertPackets(c: Conn, alerts: seq<nat>): seq<Packet> {
    seq(|alerts|, i requires 0 <= i < |alerts| => Packet(c.localEpoch, Alert(alerts[i])))
  }

  function Take(c: Conn, input: Incoming): Conn {
    c.(handshakeRx := c.handshakeRx || input.handshake,
       outgoing := c.outgoing + AlertPackets(c, input.alerts),
       raised := c.raised + AlertPackets(c, input.alerts))
  }

  function AfterQueued(env: Environment, c: Conn, queued: Incoming): Outcome {
    var d := Take(c, queued);
    if !queued.ok then Outcome(d, false)
    else if queued.handshake && !d.completed then HandshakeLoop(env, d)
    else Outcome(d, true)
  }

  /** `Endpoint::read` on one connection, up to the transmission of its outgoing packets. */
  function Read(env: Environment, c: Conn, input: Incoming, queued: Incoming): Outcome {
    var d := Take(c, input);
    if !input.ok then Outcome(d, false)
    else if d.completed then Outcome(d, true)
    else
      var r := HandshakeLoop(env, d);
      if !r.ok then r else AfterQueued(env, r.conn, queued)
  }

  predicate TimerFires(c: Conn, now: nat) {
    c.timer.Some? && now >= c.timer.value
  }

  /** `Endpoint::handle_timeout` on one connection, up to the same point. */
  function Timeout(env: Environment, c: Conn, now: nat): Outcome {
    if !TimerFires(c, now) then Outcome(c, true)
    else
      var d := c.(timer := None);
      if d.completed then Outcome(d, true) else HandshakeTimeout(env, d)
  }

  /** The part of a saved connection state that the machine reads. */
  datatype Saved = Saved(localEpoch: nat, sendSequence: nat)

  /** A connection before its first step; one built from a saved state starts at the end. */
  function Fresh(config: Config, isClient: bool, saved: Option<Saved>): Conn {
    Conn(config,
         if saved.Some? then Finished else Preparing,
         false, None, 0,
         if saved.Some? then (if isClient then Flight5 else Flight6) else (if isClient then Flight1 else Flight0),
         None, false, false,
         if saved.Some? then saved.value.sendSequence else 0,
         if saved.Some? then saved.value.localEpoch else 0,
         [], 0, [], NeverWaited, [], [])
  }
}
