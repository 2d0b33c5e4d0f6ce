/** Properties of the DTLS handshake machine over every run of endpoint operations. */
module DtlsRuns {
  import opened Options
  import opened Dtls

  // --------------------------------------------------------------- termination

  /** The loop after `n` iterations, or the outcome it returned before that. */
  function IterateN(env: Environment, c: Conn, n: nat): Iteration
    decreases n
  {
    if n == 0 then Again(c) else
    match Iterate(env, c)
    case Return(outcome) => Return(outcome)
    case Again(d) => IterateN(env, d, n - 1)
  }

  ghost predicate Terminates(env: Environment, c: Conn) {
    exists n: nat :: IterateN(env, c, n).Return?
  }

  /** A handshake not yet completed returns within eight iterations of any environment. */
  lemma {:induction false} HandshakeTerminates(env: Environment, c: Conn)
    requires !c.completed
    ensures IterateN(env, c, Measure(c) + 1) == Return(HandshakeLoop(env, c))
    ensures Measure(c) <= 7
    decreases Measure(c)
  {
    if Iterate(env, c).Again? {
      IterationDecreases(env, c);
      var d := Iterate(env, c).conn;
      HandshakeTerminates(env, d);
      ReturnedStays(env, d, Measure(d) + 1, Measure(c));
    }
  }

  lemma {:induction false} ReturnedStays(env: Environment, c: Conn, m: nat, n: nat)
    requires m <= n && IterateN(env, c, m).Return?
    ensures IterateN(env, c, n) == IterateN(env, c, m)
    decreases m
  {
    NextN(env, c, m);
    NextN(env, c, n);
    if Iterate(env, c).Again? {
      ReturnedStays(env, Iterate(env, c).conn, m - 1, n - 1);
    }
  }

  lemma NextN(env: Environment, c: Conn, n: nat)
    ensures n == 0 ==> !IterateN(env, c, n).Return?
    ensures n > 0 && Iterate(env, c).Again? ==> IterateN(env, c, n) == IterateN(env, Iterate(env, c).conn, n - 1)
    ensures n > 0 && Iterate(env, c).Return? ==> IterateN(env, c, n) == Iterate(env, c)
  {
  }

  /** Entered in Finished, the loop returns exactly when the handshake was not completed, or the one
      pending packet batch fails to parse fatally. Otherwise it spins forever. */
  lemma FinishedTerminatesIff(env: Environment, c: Conn)
    requires c.state == Finished
    ensures Terminates(env, c) <==>
              !c.completed ||
              (c.handshakeRx && var p := env.parse(c.flight, c.asked); p.ParseFailed? && p.fatal)
  {
    var p := env.parse(c.flight, c.asked);
    if !c.completed || (c.handshakeRx && p.ParseFailed? && p.fatal) {
      assert IterateN(env, c, 1).Return?;
    } else {
      forall n: nat
        ensures !IterateN(env, c, n).Return?
      {
        SpinsOnce(env, c, n);
      }
    }
  }

  lemma SpinsOnce(env: Environment, c: Conn, n: nat)
    requires c.state == Finished && c.completed
    requires c.handshakeRx ==> var p := env.parse(c.flight, c.asked); !(p.ParseFailed? && p.fatal)
    ensures !IterateN(env, c, n).Return?
  {
    if n > 0 {
      var d := Iterate(env, c).conn;
      SpinsForever(env, d, n - 1);
    }
  }

  lemma {:induction false} SpinsForever(env: Environment, c: Conn, n: nat)
    requires c.state == Finished && c.completed && !c.handshakeRx
    ensures IterateN(env, c, n) == Again(c)
  {
    if n > 0 {
      SpinsForever(env, c, n - 1);
    }
  }

  // ---------------------------------------------------------------- invariants

  /** Writes of one buffered flight all carry the same packets, hence the same message numbers. */
  predicate IdenticalWrites(rounds: Rounds) {
    forall r, i, j :: 0 <= r < |rounds| && 0 <= i < |rounds[r]| && 0 <= j < |rounds[r]| ==> rounds[r][i] == rounds[r][j]
  }

  predicate BoundedWrites(rounds: Rounds, max: nat) {
    forall r :: 0 <= r < |rounds| ==> |rounds[r]| <= 1 + max
  }

  /** Writes so far of the flight buffered last. */
  function Writes(rounds: Rounds): seq<seq<Packet>> {
    if rounds == [] then [] else rounds[|rounds| - 1]
  }

  /** The history of writes fits the limit and the buffered flight. */
  predicate WritesFit(rounds: Rounds, flights: Option<seq<Packet>>, max: nat) {
    && IdenticalWrites(rounds)
    && BoundedWrites(rounds, max)
    && (forall i :: 0 <= i < |Writes(rounds)| ==> flights == Some(Writes(rounds)[i]))
  }

  predicate StateFits(c: Conn) {
    && (c.completed ==> c.state == Finished)
    && (c.timer.Some? ==> c.state == Waiting)
    && (c.state == Sending || c.state == Waiting ==> c.rounds != [])
    && (c.state == Sending ==> |Writes(c.rounds)| <= c.retransmitCount <= c.config.maximumRetransmitNumber)
    && (c.state == Waiting ==>
          && c.retransmitCount <= c.config.maximumRetransmitNumber
          && |Writes(c.rounds)| <= 1 + c.retransmitCount
          && c.entry != NeverWaited
          && (c.timer.Some? <==> c.entry != ByConsume))
  }

  predicate Inv(c: Conn) {
    WritesFit(c.rounds, c.flights, c.config.maximumRetransmitNumber) && StateFits(c)
  }

  /** Where a connection may be between endpoint operations. */
  predicate AtRest(c: Conn) {
    && c.state != Sending
    && (c.completed <==> c.state == Finished)
  }

  /** A newly buffered flight has no writes, whatever it holds. */
  lemma NewRoundFits(rounds: Rounds, flights: Option<seq<Packet>>, next: Option<seq<Packet>>, max: nat)
    requires WritesFit(rounds, flights, max)
    ensures WritesFit(rounds + [[]], next, max) && Writes(rounds + [[]]) == []
  {
  }

  /** What `prepare` does, apart from the flight it buffers and the numbering. */
  predicate StartsRound(c: Conn, d: Conn) {
    && d.rounds == c.rounds + [[]] && d.config == c.config && d.retransmitCount == 0
    && d.timer == c.timer && d.completed == c.completed && d.state == c.state && d.flight == c.flight
  }

  lemma RestartedShape(c: Conn)
    ensures StartsRound(c, Restarted(c))
  {
  }

  lemma PrepareShape(env: Environment, c: Conn)
    ensures StartsRound(c, Prepare(env, c).conn)
    ensures Prepare(env, c).next == None || Prepare(env, c).next == Some(Sending)
  {
    RestartedShape(c);
  }

  lemma PrepareKeeps(env: Environment, c: Conn)
    requires Inv(c) && c.state == Preparing && !c.completed
    ensures var leg := Prepare(env, c);
            && (leg.next == None || leg.next == Some(Sending))
            && Inv(leg.conn.(state := Sending)) && Inv(leg.conn)
  {
    var d := Prepare(env, c).conn;
    PrepareShape(env, c);
    NewRoundFits(c.rounds, c.flights, d.flights, c.config.maximumRetransmitNumber);
  }

  /** Writing the buffered flight once more fits if the limit allows one more. */
  lemma LogFits(rounds: Rounds, packets: seq<Packet>, max: nat)
    requires WritesFit(rounds, Some(packets), max) && |Writes(rounds)| <= max
    ensures WritesFit(Log(rounds, packets), Some(packets), max)
    ensures |Writes(Log(rounds, packets))| == |Writes(rounds)| + 1
  {
    assert Writes(Log(rounds, packets)) == Writes(rounds) + [packets];
  }

  lemma SendKeeps(env: Environment, c: Conn)
    requires Inv(c) && c.state == Sending && !c.completed
    ensures var leg := Send(env, c);
            leg.next.Some? && Inv(leg.conn.(state := leg.next.value))
  {
    if c.flights.Some? {
      LogFits(c.rounds, c.flights.value, c.config.maximumRetransmitNumber);
    }
  }

  lemma WaitKeeps(env: Environment, c: Conn)
    requires Inv(c) && c.state == Waiting && !c.completed
    ensures var leg := Wait(env, c);
            Inv(leg.conn) && (leg.next.Some? ==> Inv(leg.conn.(state := leg.next.value)))
  {
  }

  /** An iteration returns at rest or goes on with the invariant. */
  predicate KeptBy(iteration: Iteration) {
    match iteration
    case Return(outcome) => Inv(outcome.conn) && AtRest(outcome.conn)
    case Again(d) => Inv(d)
  }

  lemma PreparingKeeps(env: Environment, c: Conn)
    requires Inv(c) && c.state == Preparing && !c.completed
    ensures KeptBy(Iterate(env, c))
  {
    PrepareKeeps(env, c);
    PrepareShape(env, c);
  }

  lemma WaitingKeeps(env: Environment, c: Conn)
    requires Inv(c) && c.state == Waiting && !c.completed
    ensures KeptBy(Iterate(env, c))
  {
    WaitKeeps(env, c);
  }

  lemma IterateKeeps(env: Environment, c: Conn)
    requires Inv(c) && !c.completed
    ensures KeptBy(Iterate(env, c))
  {
    match c.state {
      case Preparing => PreparingKeeps(env, c);
      case Sending => SendKeeps(env, c);
      case Waiting => WaitingKeeps(env, c);
      case _ =>
    }
  }

  lemma {:induction false} LoopKeeps(env: Environment, c: Conn)
    requires Inv(c) && !c.completed
    ensures Inv(HandshakeLoop(env, c).conn) && AtRest(HandshakeLoop(env, c).conn)
    decreases Measure(c)
  {
    IterationDecreases(env, c);
    IterateKeeps(env, c);
    if Iterate(env, c).Again? {
      LoopKeeps(env, Iterate(env, c).conn);
    }
  }

  lemma TakeKeeps(c: Conn, input: Incoming)
    requires Inv(c)
    ensures Inv(Take(c, input))
  {
  }

  lemma ReadKeeps(env: Environment, c: Conn, input: Incoming, queued: Incoming)
    requires Inv(c) && AtRest(c)
    ensures Inv(Read(env, c, input, queued).conn) && AtRest(Read(env, c, input, queued).conn)
  {
    var d := Take(c, input);
    TakeKeeps(c, input);
    if input.ok && !d.completed {
      LoopKeeps(env, d);
      var r := HandshakeLoop(env, d);
      if r.ok {
        TakeKeeps(r.conn, queued);
        if queued.ok && queued.handshake && !r.conn.completed {
          LoopKeeps(env, Take(r.conn, queued));
        }
      }
    }
  }

  lemma TimeoutKeeps(env: Environment, c: Conn, now: nat)
    requires Inv(c) && AtRest(c)
    ensures Inv(Timeout(env, c, now).conn) && AtRest(Timeout(env, c, now).conn)
  {
    if TimerFires(c, now) {
      LoopKeeps(env, TimedOut(env, c.(timer := None)).value);
    }
  }

  // ---------------------------------------------------------------------- runs

  /** Endpoint operations on one connection. Outgoing packets may leave at any time between them. */
  datatype Op = ReadOp(input: Incoming, queued: Incoming) | TimeoutOp(now: nat) | TransmitOp

  function ApplyOp(env: Environment, c: Conn, op: Op): Conn {
    match op
    case ReadOp(input, queued) => Read(env, c, input, queued).conn
    case TimeoutOp(now) => Timeout(env, c, now).conn
    case TransmitOp => c.(outgoing := [])
  }

  function RunOps(env: Environment, c: Conn, ops: seq<Op>): Conn
    decreases |ops|
  {
    if ops == [] then c else RunOps(env, ApplyOp(env, c, ops[0]), ops[1..])
  }

  /** A connection as the endpoint first stores it: a server untouched, a client after its first
      handshake call, which must have succeeded. */
  predicate Stored(env: Environment, config: Config, isClient: bool, saved: Option<Saved>, c: Conn) {
    if isClient then HandshakeLoop(env, Fresh(config, true, saved)) == Outcome(c, true)
    else saved.None? && c == Fresh(config, false, None)
  }

  lemma StoredInv(env: Environment, config: Config, isClient: bool, saved: Option<Saved>, c: Conn)
    requires Stored(env, config, isClient, saved, c)
    ensures Inv(c) && AtRest(c)
  {
    if isClient {
      LoopKeeps(env, Fresh(config, true, saved));
    }
  }

  lemma OpKeeps(env: Environment, c: Conn, op: Op)
    requires Inv(c) && AtRest(c)
    ensures Inv(ApplyOp(env, c, op)) && AtRest(ApplyOp(env, c, op))
  {
    match op {
      case ReadOp(input, queued) => ReadKeeps(env, c, input, queued);
      case TimeoutOp(now) => TimeoutKeeps(env, c, now);
      case TransmitOp =>
    }
  }

  lemma {:induction false} RunKeeps(env: Environment, c: Conn, ops: seq<Op>)
    requires Inv(c) && AtRest(c)
    ensures Inv(RunOps(env, c, ops)) && AtRest(RunOps(env, c, ops))
    decreases |ops|
  {
    if ops != [] {
      OpKeeps(env, c, ops[0]);
      RunKeeps(env, ApplyOp(env, c, ops[0]), ops[1..]);
    }
  }

  ghost predicate Reachable(env: Environment, c: Conn) {
    exists config, isClient, saved, c0, ops ::
      Stored(env, config, isClient, saved, c0) && c == RunOps(env, c0, ops)
  }

  lemma ReachableInv(env: Environment, c: Conn)
    requires Reachable(env, c)
    ensures Inv(c) && AtRest(c)
  {
    var config, isClient, saved, c0, ops :|
      Stored(env, config, isClient, saved, c0) && c == RunOps(env, c0, ops);
    StoredInv(env, config, isClient, saved, c0);
    RunKeeps(env, c0, ops);
  }

  // ------------------------------------------------------------------ theorems

  /** Between operations a connection is never Sending, and is completed exactly when Finished. */
  lemma RestStates(env: Environment, c: Conn)
    requires Reachable(env, c)
    ensures c.state == Preparing || c.state == Waiting || c.state == Errored || (c.state == Finished && c.completed)
    ensures c.completed ==> c.state == Finished
  {
    ReachableInv(env, c);
  }

  /** So a firing timer always finds the machine in Waiting: the branch of `handshake_timeout` that
      resends the last flight from Finished is never taken, and `handshake` is never entered in a
      state from which it would not return. */
  lemma TimerFiresOnlyInWaiting(env: Environment, c: Conn, now: nat)
    requires Reachable(env, c) && TimerFires(c, now)
    ensures c.state == Waiting && !c.completed
  {
    ReachableInv(env, c);
  }

  /** A buffered flight is written at most once plus the retransmit limit, each time the same packets. */
  lemma RetransmissionBoundedAndIdentical(env: Environment, c: Conn)
    requires Reachable(env, c)
    ensures BoundedWrites(c.rounds, c.config.maximumRetransmitNumber)
    ensures IdenticalWrites(c.rounds)
  {
    ReachableInv(env, c);
  }

  /** Errored and completed are absorbing, and nothing of a flight is written from then on. In
      particular a completed server never resends its last flight. */
  lemma {:induction false} EndStatesAbsorb(env: Environment, c: Conn, ops: seq<Op>)
    requires Inv(c) && AtRest(c) && (c.state == Errored || c.completed)
    ensures var d := RunOps(env, c, ops);
            d.state == c.state && d.completed == c.completed && d.rounds == c.rounds
    decreases |ops|
  {
    if ops != [] {
      var d := ApplyOp(env, c, ops[0]);
      OpKeeps(env, c, ops[0]);
      assert d.state == c.state && d.completed == c.completed && d.rounds == c.rounds by {
        if ops[0].ReadOp? && ops[0].input.ok && !c.completed {
          LoopKeeps(env, Take(c, ops[0].input));
          assert Iterate(env, Take(c, ops[0].input)).Return?;
        }
      }
      EndStatesAbsorb(env, d, ops[1..]);
    }
  }

  /** A waiting connection has its retransmit timer armed exactly when the last step into Waiting was a
      send or a re-arm, and not when handshake packets were consumed without yielding a next flight. */
  lemma TimerArmedIff(env: Environment, c: Conn)
    requires Reachable(env, c) && c.state == Waiting
    ensures c.timer.Some? <==> c.entry == BySend || c.entry == ByRearm
    ensures c.timer.None? <==> c.entry == ByConsume
  {
    ReachableInv(env, c);
  }

  /** No handshake packets reach the connection in these operations. */
  predicate WithoutHandshakePackets(ops: seq<Op>) {
    forall i :: 0 <= i < |ops| && ops[i].ReadOp? ==> !ops[i].input.handshake && !ops[i].queued.handshake
  }

  /** Without the timer the connection is stuck: whatever time passes, and whatever else arrives, it
      neither retransmits nor moves until handshake packets arrive. */
  lemma {:induction false} StalledWithoutTimer(env: Environment, c: Conn, ops: seq<Op>)
    requires c.state == Waiting && c.timer.None? && !c.completed && !c.handshakeRx
    requires WithoutHandshakePackets(ops)
    ensures var d := RunOps(env, c, ops);
            d.state == Waiting && d.timer.None? && d.rounds == c.rounds && d.flight == c.flight
    decreases |ops|
  {
    if ops != [] {
      var d := ApplyOp(env, c, ops[0]);
      assert && d.state == Waiting && d.timer.None? && !d.completed && !d.handshakeRx
             && d.rounds == c.rounds && d.flight == c.flight by {
        if ops[0].ReadOp? && ops[0].input.ok {
          var t := Take(c, ops[0].input);
          assert Iterate(env, t) == Return(Outcome(t, true));
        }
      }
      StalledWithoutTimer(env, d, ops[1..]);
    }
  }

  /** Whether time alone can move a waiting connection depends on the timer alone. */
  lemma TimeMovesWaitingIff(env: Environment, c: Conn)
    requires Reachable(env, c) && c.state == Waiting
    ensures (exists now :: Timeout(env, c, now).conn != c) <==> c.entry != ByConsume
  {
    ReachableInv(env, c);
    if c.timer.Some? {
      var now := c.timer.value;
      FiringMoves(env, c, now);
      assert Timeout(env, c, now).conn != c;
    }
  }

  lemma FiringMoves(env: Environment, c: Conn, now: nat)
    requires Inv(c) && c.state == Waiting && TimerFires(c, now)
    ensures Timeout(env, c, now).conn != c
  {
    var d := TimedOut(env, c.(timer := None)).value;
    AskedGrows(env, d);
  }

  lemma StepGrows(env: Environment, c: Conn)
    ensures var d := StepOf(env, c).conn;
            d.asked >= c.asked && |d.rounds| >= |c.rounds| &&
            (|d.rounds| == |c.rounds| > 0 ==> d.retransmitCount == c.retransmitCount)
  {
    match c.state {
      case Preparing => PrepareShape(env, c);
      case Sending =>
        var d := Send(env, c).conn;
        assert d.retransmitCount == c.retransmitCount && d.asked >= c.asked && |d.rounds| >= |c.rounds|;
      case Waiting =>
        var d := Wait(env, c).conn;
        assert d.retransmitCount == c.retransmitCount && d.asked >= c.asked && d.rounds == c.rounds;
      case _ =>
    }
  }

  lemma {:induction false} AskedGrows(env: Environment, c: Conn)
    requires !c.completed
    ensures var d := HandshakeLoop(env, c).conn;
            d.asked >= c.asked && |d.rounds| >= |c.rounds| &&
            (|d.rounds| == |c.rounds| > 0 ==> d.retransmitCount == c.retransmitCount)
    decreases Measure(c)
  {
    IterationDecreases(env, c);
    StepGrows(env, c);
    if Iterate(env, c).Again? {
      AskedGrows(env, Iterate(env, c).conn);
    }
  }

  /** Handshake packets that complete no flight cancel the timer and nothing else. */
  lemma IncompleteFlightCancelsTimer(env: Environment, c: Conn)
    requires c.state == Waiting && !c.completed && env.parse(c.flight, c.asked) == ParseFailed(None, false)
    ensures var d := ApplyOp(env, c, ReadOp(Incoming(true, [], true), Incoming(false, [], true)));
            d.state == Waiting && d.timer.None? && !d.handshakeRx && d.rounds == c.rounds && d.flight == c.flight
  {
    var t := Take(c, Incoming(true, [], true));
    assert Iterate(env, t).Return? && Iterate(env, t).outcome.ok;
  }

  /** A reachable stall: a client whose peer's flight arrived only in part. */
  lemma PartialFlightStalls(env: Environment, config: Config)
    requires env.generate(Flight1, 0).Packets? && forall f, n :: env.parse(f, n) == ParseFailed(None, false)
    ensures exists c :: Reachable(env, c) && c.state == Waiting && c.timer.None? && !c.handshakeRx
  {
    StartsWaiting(env, config);
    var c0 := HandshakeLoop(env, Fresh(config, true, None)).conn;
    IncompleteFlightCancelsTimer(env, c0);
    OneOp(env, config, c0, ReadOp(Incoming(true, [], true), Incoming(false, [], true)));
  }

  lemma OneOp(env: Environment, config: Config, c0: Conn, op: Op)
    requires Stored(env, config, true, None, c0)
    ensures Reachable(env, ApplyOp(env, c0, op))
  {
    var c := ApplyOp(env, c0, op);
    assert [op][1..] == [] && RunOps(env, c, []) == c;
    assert RunOps(env, c0, [op]) == c;
  }

  lemma StartsWaiting(env: Environment, config: Config)
    requires env.generate(Flight1, 0).Packets?
    ensures var r := HandshakeLoop(env, Fresh(config, true, None));
            r.ok && r.conn.state == Waiting && r.conn.timer.Some? && !r.conn.handshakeRx && !r.conn.completed
  {
    var c0 := Fresh(config, true, None);
    var c1 := Iterate(env, c0).conn;
    var c2 := Iterate(env, c1).conn;
    assert c1.state == Sending && c2.state == Waiting;
    assert Iterate(env, c2) == Return(Outcome(c2, true));
    assert HandshakeLoop(env, c2) == Outcome(c2, true);
    assert HandshakeLoop(env, c1) == Outcome(c2, true);
  }

  // --------------------------------------------------------------------- roles

  /** The flights `parse` may lead to, flight by flight. */
  function Successors(f: Flight): set<Flight> {
    match f
    case Flight0 => {Flight2}
    case Flight1 => {Flight3, Flight5}
    case Flight2 => {Flight2, Flight4}
    case Flight3 => {Flight3, Flight5}
    case Flight4 => {Flight6}
    case Flight5 => {Flight5}
    case Flight6 => {Flight6}
  }

  ghost predicate FollowsFlights(env: Environment) {
    forall f, n :: env.parse(f, n).Next? ==> env.parse(f, n).flight in Successors(f)
  }

  predicate InRole(c: Conn, isClient: bool) {
    && (isClient <==> c.flight == Flight1 || c.flight == Flight3 || c.flight == Flight5)
    && (c.state == Finished ==> c.flight == if isClient then Flight5 else Flight6)
  }

  lemma StepInRole(env: Environment, c: Conn, isClient: bool)
    requires FollowsFlights(env) && !c.completed && InRole(c, isClient) && c.state != Finished
    ensures var leg := StepOf(env, c);
      InRole(leg.conn, isClient) && (leg.next.Some? ==> InRole(leg.conn.(state := leg.next.value), isClient))
  {
    if c.state == Preparing {
      PrepareShape(env, c);
    }
  }

  lemma {:induction false} LoopInRole(env: Environment, c: Conn, isClient: bool)
    requires FollowsFlights(env) && !c.completed && InRole(c, isClient)
    ensures InRole(HandshakeLoop(env, c).conn, isClient)
    decreases Measure(c)
  {
    IterationDecreases(env, c);
    if c.state != Finished {
      StepInRole(env, c, isClient);
    }
    if Iterate(env, c).Again? {
      LoopInRole(env, Iterate(env, c).conn, isClient);
    }
  }

  lemma ReadInRole(env: Environment, c: Conn, input: Incoming, queued: Incoming, isClient: bool)
    requires FollowsFlights(env) && InRole(c, isClient)
    ensures InRole(Read(env, c, input, queued).conn, isClient)
  {
    var d := Take(c, input);
    if input.ok && !d.completed {
      LoopInRole(env, d, isClient);
      var e := Take(HandshakeLoop(env, d).conn, queued);
      if !e.completed {
        LoopInRole(env, e, isClient);
      }
    }
  }

  lemma TimeoutInRole(env: Environment, c: Conn, now: nat, isClient: bool)
    requires FollowsFlights(env) && Inv(c) && InRole(c, isClient)
    ensures InRole(Timeout(env, c, now).conn, isClient)
  {
    if TimerFires(c, now) {
      LoopInRole(env, TimedOut(env, c.(timer := None)).value, isClient);
    }
  }

  lemma OpInRole(env: Environment, c: Conn, op: Op, isClient: bool)
    requires FollowsFlights(env) && Inv(c) && InRole(c, isClient)
    ensures InRole(ApplyOp(env, c, op), isClient)
  {
    match op {
      case TimeoutOp(now) => TimeoutInRole(env, c, now, isClient);
      case ReadOp(input, queued) => ReadInRole(env, c, input, queued, isClient);
      case TransmitOp =>
    }
  }

  lemma {:induction false} RunInRole(env: Environment, c: Conn, ops: seq<Op>, isClient: bool)
    requires FollowsFlights(env) && Inv(c) && AtRest(c) && InRole(c, isClient)
    ensures InRole(RunOps(env, c, ops), isClient)
    decreases |ops|
  {
    if ops != [] {
      OpInRole(env, c, ops[0], isClient);
      OpKeeps(env, c, ops[0]);
      RunInRole(env, ApplyOp(env, c, ops[0]), ops[1..], isClient);
    }
  }

  /** A connection is in its role as the endpoint stores it, resumed or not. */
  lemma StoredInRole(env: Environment, config: Config, isClient: bool, saved: Option<Saved>, c: Conn)
    requires FollowsFlights(env) && Stored(env, config, isClient, saved, c)
    ensures InRole(c, isClient)
  {
    if isClient {
      LoopInRole(env, Fresh(config, true, saved), true);
    }
  }

  /** A client completes only in flight 5 and a server only in flight 6, from the moment the endpoint
      stores the connection and whatever is lost, repeated or reordered on the way. */
  lemma CompletesInLastFlight(
    env: Environment, config: Config, isClient: bool, saved: Option<Saved>, c: Conn, ops: seq<Op>)
    requires FollowsFlights(env) && Stored(env, config, isClient, saved, c)
    ensures var d := RunOps(env, c, ops);
      InRole(d, isClient) && (d.completed ==> d.flight == if isClient then Flight5 else Flight6)
  {
    StoredInRole(env, config, isClient, saved, c);
    StoredInv(env, config, isClient, saved, c);
    RunInRole(env, c, ops, isClient);
    RunKeeps(env, c, ops);
  }
}
