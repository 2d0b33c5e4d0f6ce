/** What the flights written are: the generated packets, numbered from where the flight before ended, resent
    exactly as often as their timer expires. */
module DtlsFlights {
  import opened Options
  import opened Dtls
  import opened DtlsRuns

  // ------------------------------------------------------------------- numbering

  /** The packets generated for a request. */
  function GeneratedFor(env: Environment, ask: Ask): Option<seq<Packet>> {
    var g := env.generate(ask.flight, ask.asked);
    if g.Packets? then Some(g.packets) else None
  }

  /** The handshake messages of all flights generated before request `n`, since the last flight 2. */
  function MessagesBefore(env: Environment, prepared: seq<Ask>, base: nat, n: nat): nat
    requires n <= |prepared|
    decreases n, 0
  {
    if n == 0 then base
    else
      var packets := GeneratedFor(env, prepared[n - 1]);
      FirstNumber(env, prepared, base, n - 1) + if packets.Some? then HandshakesIn(packets.value) else 0
  }

  /** The number of the first message of flight `n`: flight 2 starts over. */
  function FirstNumber(env: Environment, prepared: seq<Ask>, base: nat, n: nat): nat
    requires n < |prepared|
    decreases n, 1
  {
    if prepared[n].flight == Flight2 then 0 else MessagesBefore(env, prepared, base, n)
  }

  /** What flight `n` must look like on the wire. */
  function Expected(env: Environment, epoch: nat, prepared: seq<Ask>, base: nat, n: nat): Option<seq<Packet>>
    requires n < |prepared|
  {
    var packets := GeneratedFor(env, prepared[n]);
    if packets.None? then None else Some(Numbered(packets.value, epoch, FirstNumber(env, prepared, base, n)))
  }

  lemma {:induction false} MessagesStay(env: Environment, prepared: seq<Ask>, base: nat, ask: Ask, n: nat)
    requires n <= |prepared|
    ensures MessagesBefore(env, prepared + [ask], base, n) == MessagesBefore(env, prepared, base, n)
    ensures n < |prepared| ==> FirstNumber(env, prepared + [ask], base, n) == FirstNumber(env, prepared, base, n)
    decreases n
  {
    if n > 0 {
      MessagesStay(env, prepared, base, ask, n - 1);
    }
  }

  /** The writes of one flight: all as expected, at least one unless it is still `pending`, none if none
      was generated. */
  predicate WrittenAs(writes: seq<seq<Packet>>, flight: Option<seq<Packet>>, pending: bool) {
    match flight
    case None => writes == []
    case Some(packets) => (pending || writes != []) && forall i :: 0 <= i < |writes| ==> writes[i] == packets
  }

  /** All flights but the last are written as expected; the last is the one buffered. */
  predicate FlightsFit(env: Environment, epoch: nat, base: nat, prepared: seq<Ask>, rounds: Rounds,
                       flights: Option<seq<Packet>>, sequence: nat, pending: bool)
  {
    && |rounds| == |prepared|
    && sequence == MessagesBefore(env, prepared, base, |prepared|)
    && (rounds == [] ==> flights == None)
    && (rounds != [] ==> flights == Expected(env, epoch, prepared, base, |rounds| - 1))
    && forall n :: 0 <= n < |rounds| ==>
         WrittenAs(rounds[n], Expected(env, epoch, prepared, base, n), pending && n == |rounds| - 1)
  }

  predicate PhaseFits(state: HandshakeState, flight: Flight, retransmit: bool, prepared: seq<Ask>) {
    && (state == Sending || state == Waiting ==>
          prepared != [] && prepared[|prepared| - 1].flight == flight && retransmit == (flight != Flight2))
    && (state == Waiting ==> flight != Flight6)
  }

  predicate TimerFits(env: Environment, timer: Option<nat>, asked: nat, interval: nat) {
    timer.Some? ==> asked > 0 && timer.value == env.clock(asked - 1) + interval
  }

  predicate Fits(env: Environment, base: nat, c: Conn) {
    && FlightsFit(env, c.config.initialEpoch, base, c.prepared, c.rounds, c.flights, c.sendSequence, c.state == Sending)
    && PhaseFits(c.state, c.flight, c.retransmit, c.prepared)
    && TimerFits(env, c.timer, c.asked, c.config.retransmitInterval)
  }

  // ---------------------------------------------------------------- every step

  lemma EarlierStay(env: Environment, epoch: nat, base: nat, prepared: seq<Ask>, rounds: Rounds,
                    flights: Option<seq<Packet>>, sequence: nat, ask: Ask)
    requires FlightsFit(env, epoch, base, prepared, rounds, flights, sequence, false)
    ensures forall n :: 0 <= n < |rounds| ==>
      WrittenAs((rounds + [[]])[n], Expected(env, epoch, prepared + [ask], base, n), false)
  {
    forall n | 0 <= n < |rounds|
      ensures WrittenAs((rounds + [[]])[n], Expected(env, epoch, prepared + [ask], base, n), false)
    {
      MessagesStay(env, prepared, base, ask, n);
    }
  }

  /** A new request, with what it generated buffered and nothing written yet. */
  lemma NewFlight(env: Environment, epoch: nat, base: nat, prepared: seq<Ask>, rounds: Rounds,
                  flights: Option<seq<Packet>>, sequence: nat, ask: Ask)
    requires FlightsFit(env, epoch, base, prepared, rounds, flights, sequence, false)
    ensures var start := if ask.flight == Flight2 then 0 else sequence;
      var g := GeneratedFor(env, ask);
      FlightsFit(env, epoch, base, prepared + [ask], rounds + [[]],
                 if g.None? then None else Some(Numbered(g.value, epoch, start)),
                 start + (if g.None? then 0 else HandshakesIn(g.value)), g.Some?)
  {
    EarlierStay(env, epoch, base, prepared, rounds, flights, sequence, ask);
    MessagesStay(env, prepared, base, ask, |prepared|);
  }

  /** What `prepare` leaves in the fields that describe flights. */
  lemma PreparedFields(env: Environment, c: Conn)
    ensures var d := Prepare(env, c).conn;
      var start := if c.flight == Flight2 then 0 else c.sendSequence;
      var g := GeneratedFor(env, Ask(c.flight, c.asked));
      && d.prepared == c.prepared + [Ask(c.flight, c.asked)]
      && d.rounds == c.rounds + [[]]
      && d.flights == (if g.None? then None else Some(Numbered(g.value, c.config.initialEpoch, start)))
      && d.sendSequence == start + if g.None? then 0 else HandshakesIn(g.value)
  {
  }

  lemma PreparedFlights(env: Environment, base: nat, c: Conn, pending: bool)
    requires FlightsFit(env, c.config.initialEpoch, base, c.prepared, c.rounds, c.flights, c.sendSequence, false)
    requires pending || GeneratedFor(env, Ask(c.flight, c.asked)).None?
    ensures var d := Prepare(env, c).conn;
      FlightsFit(env, c.config.initialEpoch, base, d.prepared, d.rounds, d.flights, d.sendSequence, pending)
  {
    PreparedFields(env, c);
    NewFlight(env, c.config.initialEpoch, base, c.prepared, c.rounds, c.flights, c.sendSequence,
              Ask(c.flight, c.asked));
  }

  lemma PreparedPhase(env: Environment, c: Conn)
    ensures var d := Prepare(env, c).conn;
      && d.prepared == c.prepared + [Ask(c.flight, c.asked)]
      && d.flight == c.flight && d.retransmit == HasRetransmit(c.flight)
      && (Prepare(env, c).next.None? ==> GeneratedFor(env, Ask(c.flight, c.asked)).None?)
  {
  }

  lemma PrepareFits(env: Environment, base: nat, c: Conn)
    requires Fits(env, base, c) && c.state == Preparing && c.timer.None?
    ensures var leg := Prepare(env, c);
      && (leg.next.None? ==> Fits(env, base, leg.conn))
      && (leg.next.Some? ==> leg.next == Some(Sending) && Fits(env, base, leg.conn.(state := Sending)))
  {
    PrepareShape(env, c);
    PreparedPhase(env, c);
    PreparedFlights(env, base, c, Prepare(env, c).next.Some?);
  }

  lemma LoggedFlight(env: Environment, epoch: nat, base: nat, prepared: seq<Ask>, rounds: Rounds, packets: seq<Packet>,
                     sequence: nat)
    requires rounds != [] && FlightsFit(env, epoch, base, prepared, rounds, Some(packets), sequence, true)
    ensures FlightsFit(env, epoch, base, prepared, Log(rounds, packets), Some(packets), sequence, false)
  {
    var last := |rounds| - 1;
    forall n | 0 <= n < |rounds|
      ensures WrittenAs(Log(rounds, packets)[n], Expected(env, epoch, prepared, base, n), false)
    {
      assert WrittenAs(rounds[n], Expected(env, epoch, prepared, base, n), n == last);
    }
  }

  lemma NothingLogged(env: Environment, epoch: nat, base: nat, prepared: seq<Ask>, rounds: Rounds, sequence: nat)
    requires FlightsFit(env, epoch, base, prepared, rounds, None, sequence, true)
    ensures FlightsFit(env, epoch, base, prepared, rounds, None, sequence, false)
  {
    forall n | 0 <= n < |rounds|
      ensures WrittenAs(rounds[n], Expected(env, epoch, prepared, base, n), false)
    {
      assert WrittenAs(rounds[n], Expected(env, epoch, prepared, base, n), n == |rounds| - 1);
    }
  }

  lemma SendFits(env: Environment, base: nat, c: Conn)
    requires Fits(env, base, c) && c.state == Sending && c.timer.None?
    ensures var leg := Send(env, c); leg.next.Some? && Fits(env, base, leg.conn.(state := leg.next.value))
  {
    var epoch := c.config.initialEpoch;
    if c.flights.Some? {
      LoggedFlight(env, epoch, base, c.prepared, c.rounds, c.flights.value, c.sendSequence);
    } else {
      NothingLogged(env, epoch, base, c.prepared, c.rounds, c.sendSequence);
    }
  }

  /** Leaving Waiting keeps what is said of flights and needs nothing of the phase. */
  lemma LeftWaiting(env: Environment, base: nat, c: Conn, d: Conn)
    requires Fits(env, base, c) && c.state == Waiting && d.timer.None? && d.config == c.config
    requires d.prepared == c.prepared && d.rounds == c.rounds && d.flights == c.flights
    requires d.sendSequence == c.sendSequence && d.retransmit == c.retransmit
    requires d.state == Preparing || d.state == Finished || (d.state == Waiting && d.flight == c.flight)
    ensures Fits(env, base, d)
  {
  }

  lemma WaitFields(env: Environment, c: Conn)
    requires c.state == Waiting && c.handshakeRx
    ensures var d := Wait(env, c).conn;
      && d.timer.None? && d.config == c.config && d.prepared == c.prepared && d.rounds == c.rounds
      && d.flights == c.flights && d.sendSequence == c.sendSequence && d.retransmit == c.retransmit
      && d.state == Waiting && (Wait(env, c).next != Some(Preparing) ==> d.flight == c.flight)
      && Wait(env, c).next != Some(Sending) && Wait(env, c).next != Some(Errored)
  {
  }

  lemma WaitFits(env: Environment, base: nat, c: Conn)
    requires Fits(env, base, c) && c.state == Waiting
    ensures var leg := Wait(env, c);
      Fits(env, base, if leg.next.None? then leg.conn else leg.conn.(state := leg.next.value))
  {
    var leg := Wait(env, c);
    if c.handshakeRx {
      WaitFields(env, c);
      LeftWaiting(env, base, c, if leg.next.None? then leg.conn else leg.conn.(state := leg.next.value));
    }
  }

  lemma IterateFits(env: Environment, base: nat, c: Conn)
    requires Fits(env, base, c) && Inv(c) && !c.completed
    ensures match Iterate(env, c)
      case Return(outcome) => Fits(env, base, outcome.conn)
      case Again(d) => Fits(env, base, d)
  {
    match c.state {
      case Preparing => PrepareFits(env, base, c);
      case Sending => SendFits(env, base, c);
      case Waiting => WaitFits(env, base, c);
      case _ =>
    }
  }

  lemma {:induction false} LoopFits(env: Environment, base: nat, c: Conn)
    requires Fits(env, base, c) && Inv(c) && !c.completed
    ensures Fits(env, base, HandshakeLoop(env, c).conn)
    decreases Measure(c)
  {
    IterationDecreases(env, c);
    IterateFits(env, base, c);
    IterateKeeps(env, c);
    if Iterate(env, c).Again? {
      LoopFits(env, base, Iterate(env, c).conn);
    }
  }

  // --------------------------------------------------------------------- runs

  lemma TakeFits(env: Environment, base: nat, c: Conn, input: Incoming)
    requires Fits(env, base, c) && Inv(c)
    ensures Fits(env, base, Take(c, input)) && Inv(Take(c, input))
  {
  }

  lemma ReadFits(env: Environment, base: nat, c: Conn, input: Incoming, queued: Incoming)
    requires Fits(env, base, c) && Inv(c)
    ensures Fits(env, base, Read(env, c, input, queued).conn)
  {
    var d := Take(c, input);
    TakeFits(env, base, c, input);
    if input.ok && !d.completed {
      LoopFits(env, base, d);
      LoopKeeps(env, d);
      var r := HandshakeLoop(env, d).conn;
      TakeFits(env, base, r, queued);
      if !r.completed {
        LoopFits(env, base, Take(r, queued));
      }
    }
  }

  lemma PendingAgain(env: Environment, epoch: nat, base: nat, prepared: seq<Ask>, rounds: Rounds,
                     flights: Option<seq<Packet>>, sequence: nat)
    requires FlightsFit(env, epoch, base, prepared, rounds, flights, sequence, false)
    ensures FlightsFit(env, epoch, base, prepared, rounds, flights, sequence, true)
  {
    forall n | 0 <= n < |rounds|
      ensures WrittenAs(rounds[n], Expected(env, epoch, prepared, base, n), n == |rounds| - 1)
    {
      assert WrittenAs(rounds[n], Expected(env, epoch, prepared, base, n), false);
    }
  }

  lemma TimeoutFits(env: Environment, base: nat, c: Conn, now: nat)
    requires Fits(env, base, c) && Inv(c) && AtRest(c)
    ensures Fits(env, base, Timeout(env, c, now).conn)
  {
    if TimerFires(c, now) {
      PendingAgain(env, c.config.initialEpoch, base, c.prepared, c.rounds, c.flights, c.sendSequence);
      LoopFits(env, base, TimedOut(env, c.(timer := None)).value);
    }
  }

  lemma OpFits(env: Environment, base: nat, c: Conn, op: Op)
    requires Fits(env, base, c) && Inv(c) && AtRest(c)
    ensures Fits(env, base, ApplyOp(env, c, op))
  {
    match op {
      case ReadOp(input, queued) => ReadFits(env, base, c, input, queued);
      case TimeoutOp(now) => TimeoutFits(env, base, c, now);
      case TransmitOp =>
    }
  }

  lemma {:induction false} RunFits(env: Environment, base: nat, c: Conn, ops: seq<Op>)
    requires Fits(env, base, c) && Inv(c) && AtRest(c)
    ensures Fits(env, base, RunOps(env, c, ops))
    decreases |ops|
  {
    if ops != [] {
      OpFits(env, base, c, ops[0]);
      OpKeeps(env, c, ops[0]);
      RunFits(env, base, ApplyOp(env, c, ops[0]), ops[1..]);
    }
  }

  /** Where the numbering of a connection starts. */
  function Base(saved: Option<Saved>): nat {
    if saved.Some? then saved.value.sendSequence else 0
  }

  lemma StoredFits(env: Environment, config: Config, isClient: bool, saved: Option<Saved>, c: Conn)
    requires Stored(env, config, isClient, saved, c)
    ensures Fits(env, Base(saved), c)
  {
    var c0 := Fresh(config, isClient, saved);
    assert Fits(env, Base(saved), c0);
    if isClient {
      LoopFits(env, Base(saved), c0);
    }
  }

  /**
   * Over every run on a stored connection each flight is written, as often as it is, as the packets
   * generated for it, their messages numbered on from all flights before it since the last flight 2; and
   * between operations every flight that was generated has been written.
   */
  lemma FlightsAreGenerated(
    env: Environment, config: Config, isClient: bool, saved: Option<Saved>, c: Conn, ops: seq<Op>, n: nat)
    requires Stored(env, config, isClient, saved, c) && n < |RunOps(env, c, ops).rounds|
    ensures var d := RunOps(env, c, ops);
      && |d.prepared| == |d.rounds|
      && WrittenAs(d.rounds[n], Expected(env, d.config.initialEpoch, d.prepared, Base(saved), n), false)
  {
    StoredFits(env, config, isClient, saved, c);
    StoredInv(env, config, isClient, saved, c);
    RunFits(env, Base(saved), c, ops);
    RunKeeps(env, c, ops);
  }

  /** An armed timer is due one interval after the clock was last asked. */
  lemma TimerDue(env: Environment, config: Config, isClient: bool, saved: Option<Saved>, c: Conn, ops: seq<Op>)
    requires Stored(env, config, isClient, saved, c) && RunOps(env, c, ops).timer.Some?
    ensures var d := RunOps(env, c, ops);
      d.asked > 0 && d.timer.value == env.clock(d.asked - 1) + d.config.retransmitInterval
  {
    StoredFits(env, config, isClient, saved, c);
    StoredInv(env, config, isClient, saved, c);
    RunFits(env, Base(saved), c, ops);
  }

  // ------------------------------------------------------------- retransmission

  /** A connection that waits for its peer with a flight that can be resent. */
  predicate AwaitsAnswer(env: Environment, c: Conn) {
    Inv(c) && AtRest(c) && c.state == Waiting && !c.handshakeRx && c.timer.Some? && c.flights.Some?
    && c.flight != Flight6 && c.retransmit
  }

  lemma FiringResends(env: Environment, c: Conn, now: nat)
    requires AwaitsAnswer(env, c) && TimerFires(c, now) && c.retransmitCount < c.config.maximumRetransmitNumber
    ensures var d := Timeout(env, c, now).conn;
      && AwaitsAnswer(env, d)
      && d.rounds == Log(c.rounds, c.flights.value) && d.outgoing == c.outgoing + c.flights.value
      && d.flights == c.flights && d.retransmitCount == c.retransmitCount + 1 && d.config == c.config
  {
    TimeoutKeeps(env, c, now);
    var t := TimedOut(env, c.(timer := None)).value;
    IterationDecreases(env, t);
    var d := Iterate(env, t).conn;
    assert Iterate(env, t).Again? && d.state == Waiting && !d.handshakeRx;
    assert Iterate(env, d) == Return(Outcome(d, true));
    assert HandshakeLoop(env, t) == HandshakeLoop(env, d) == Outcome(d, true);
  }

  lemma FiringGivesUp(env: Environment, c: Conn, now: nat)
    requires AwaitsAnswer(env, c) && TimerFires(c, now) && c.retransmitCount == c.config.maximumRetransmitNumber
    ensures var r := Timeout(env, c, now);
      !r.ok && r.conn.state == Errored && r.conn.rounds == c.rounds && r.conn.outgoing == c.outgoing
  {
    var t := TimedOut(env, c.(timer := None)).value;
    assert Iterate(env, t) == Return(Outcome(t, false));
  }

  /** Every operation is a timeout at which the timer fires. */
  predicate AllFire(env: Environment, c: Conn, ops: seq<Op>)
    decreases |ops|
  {
    ops == [] || (ops[0].TimeoutOp? && TimerFires(c, ops[0].now) && AllFire(env, ApplyOp(env, c, ops[0]), ops[1..]))
  }

  lemma LogLength(rounds: Rounds, packets: seq<Packet>)
    requires rounds != []
    ensures |Writes(Log(rounds, packets))| == |Writes(rounds)| + 1
  {
  }

  /**
   * An unanswered flight is written once more for every expiry of its timer as long as the limit allows,
   * and the first expiry after that gives up: `k` expiries leave it waiting exactly if the limit had room
   * for `k`.
   */
  lemma {:induction false} UnansweredFlight(env: Environment, c: Conn, ops: seq<Op>)
    requires AwaitsAnswer(env, c) && AllFire(env, c, ops)
    ensures var d := RunOps(env, c, ops);
      var room := c.config.maximumRetransmitNumber - c.retransmitCount;
      && |ops| <= room + 1
      && (d.state == Waiting <==> |ops| <= room)
      && (d.state == Errored <==> |ops| == room + 1)
      && |Writes(d.rounds)| == |Writes(c.rounds)| + if |ops| <= room then |ops| else room
    decreases |ops|
  {
    if ops != [] {
      var d := ApplyOp(env, c, ops[0]);
      if c.retransmitCount < c.config.maximumRetransmitNumber {
        FiringResends(env, c, ops[0].now);
        LogLength(c.rounds, c.flights.value);
        UnansweredFlight(env, d, ops[1..]);
      } else {
        FiringGivesUp(env, c, ops[0].now);
        TimeoutKeeps(env, c, ops[0].now);
        assert ops[1..] == [];
      }
    }
  }

  /** Flight 2 is never resent: its timer only starts over. */
  lemma Flight2StartsOver(env: Environment, base: nat, c: Conn, now: nat)
    requires Fits(env, base, c) && Inv(c) && AtRest(c) && !c.handshakeRx
    requires c.state == Waiting && c.flight == Flight2 && TimerFires(c, now)
    ensures var d := Timeout(env, c, now).conn;
      && d.state == Waiting && d.rounds == c.rounds && d.outgoing == c.outgoing
      && d.timer == Some(env.clock(c.asked) + c.config.retransmitInterval)
  {
    var t := TimedOut(env, c.(timer := None)).value;
    assert Iterate(env, t) == Return(Outcome(t, true));
  }
}
