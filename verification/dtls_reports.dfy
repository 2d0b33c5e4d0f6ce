/** When the endpoint reports a completed handshake, and runs that complete one. */
module DtlsReports {
  import opened Options
  import opened Dtls
  import opened DtlsRuns

  /** The read that emits the completion event. */
  predicate Reports(env: Environment, c: Conn, op: Op) {
    op.ReadOp? && !c.completed && var r := Read(env, c, op.input, op.queued); r.ok && r.conn.completed
  }

  /** How many completion events a run of operations emits. */
  function Reported(env: Environment, c: Conn, ops: seq<Op>): nat
    decreases |ops|
  {
    if ops == [] then 0
    else (if Reports(env, c, ops[0]) then 1 else 0) + Reported(env, ApplyOp(env, c, ops[0]), ops[1..])
  }

  function At(env: Environment, c: Conn, ops: seq<Op>, k: nat): Conn
    requires k <= |ops|
  {
    RunOps(env, c, ops[..k])
  }

  /** Operation `k` is the one that completes the handshake. */
  predicate CompletesAt(env: Environment, c: Conn, ops: seq<Op>, k: nat) {
    k < |ops| && !At(env, c, ops, k).completed && At(env, c, ops, k + 1).completed
  }

  /** A read whose queued packets are all taken without error, which its caller knows beforehand. */
  predicate CleanRead(op: Op) {
    op.ReadOp? && op.queued.ok
  }

  // ------------------------------------------- a completing operation and its result

  /** A call of `handshake` that completes never returns an error. */
  lemma {:induction false} CompletingLoopIsOk(env: Environment, c: Conn)
    requires !c.completed
    ensures HandshakeLoop(env, c).conn.completed ==> HandshakeLoop(env, c).ok
    decreases Measure(c)
  {
    IterationDecreases(env, c);
    if Iterate(env, c).Again? {
      CompletingLoopIsOk(env, Iterate(env, c).conn);
    } else {
      StepKeepsIncomplete(env, c);
    }
  }

  lemma StepKeepsIncomplete(env: Environment, c: Conn)
    requires !c.completed
    ensures !StepOf(env, c).conn.completed
  {
    if c.state == Preparing {
      PrepareShape(env, c);
    }
  }

  /** So only the queued packets can make a completing read fail. */
  lemma CompletingReadOkIff(env: Environment, c: Conn, input: Incoming, queued: Incoming)
    requires !c.completed && Read(env, c, input, queued).conn.completed
    ensures Read(env, c, input, queued).ok <==> queued.ok
  {
    var d := Take(c, input);
    CompletingLoopIsOk(env, d);
    var r := HandshakeLoop(env, d);
    if r.ok && queued.ok && !r.conn.completed {
      CompletingLoopIsOk(env, Take(r.conn, queued));
    }
  }

  /** An operation reports exactly when it completes the handshake and is a read with a clean queue. */
  lemma ReportsIff(env: Environment, c: Conn, op: Op)
    ensures Reports(env, c, op) <==> !c.completed && ApplyOp(env, c, op).completed && CleanRead(op)
  {
    if op.ReadOp? && !c.completed && ApplyOp(env, c, op).completed {
      CompletingReadOkIff(env, c, op.input, op.queued);
    }
  }

  // ------------------------------------------------------------------- whole runs

  lemma AtShift(env: Environment, c: Conn, ops: seq<Op>, k: nat)
    requires 0 < k <= |ops|
    ensures At(env, c, ops, k) == At(env, ApplyOp(env, c, ops[0]), ops[1..], k - 1)
  {
    assert ops[..k][1..] == ops[1..][..k - 1];
  }

  lemma AtEnds(env: Environment, c: Conn, ops: seq<Op>)
    ensures At(env, c, ops, 0) == c && At(env, c, ops, |ops|) == RunOps(env, c, ops)
  {
    assert ops[..0] == [] && ops[..|ops|] == ops;
  }

  lemma AtOne(env: Environment, c: Conn, ops: seq<Op>)
    requires ops != []
    ensures At(env, c, ops, 1) == ApplyOp(env, c, ops[0])
  {
    AtShift(env, c, ops, 1);
    AtEnds(env, ApplyOp(env, c, ops[0]), ops[1..]);
  }

  lemma {:induction false} CompletedReportsNothing(env: Environment, c: Conn, ops: seq<Op>)
    requires Inv(c) && AtRest(c) && c.completed
    ensures Reported(env, c, ops) == 0
    decreases |ops|
  {
    if ops != [] {
      OpKeeps(env, c, ops[0]);
      EndStatesAbsorb(env, c, [ops[0]]);
      assert [ops[0]][1..] == [];
      assert RunOps(env, c, [ops[0]]) == ApplyOp(env, c, ops[0]);
      CompletedReportsNothing(env, ApplyOp(env, c, ops[0]), ops[1..]);
    }
  }

  lemma {:induction false} CompletedStays(env: Environment, c: Conn, ops: seq<Op>, k: nat)
    requires Inv(c) && AtRest(c) && c.completed && k <= |ops|
    ensures At(env, c, ops, k).completed
  {
    EndStatesAbsorb(env, c, ops[..k]);
  }

  /** A completed run was completed by exactly one of its operations. */
  lemma {:induction false} CompletedOnce(env: Environment, c: Conn, ops: seq<Op>) returns (k: nat)
    requires Inv(c) && AtRest(c) && !c.completed && RunOps(env, c, ops).completed
    ensures CompletesAt(env, c, ops, k)
    ensures forall j: nat :: CompletesAt(env, c, ops, j) ==> j == k
    ensures Reported(env, c, ops) == if CleanRead(ops[k]) then 1 else 0
    decreases |ops|
  {
    var d, rest := ApplyOp(env, c, ops[0]), ops[1..];
    OpKeeps(env, c, ops[0]);
    ReportsIff(env, c, ops[0]);
    AtEnds(env, c, ops);
    AtOne(env, c, ops);
    if d.completed {
      k := 0;
      CompletedReportsNothing(env, d, rest);
      forall j: nat | CompletesAt(env, c, ops, j)
        ensures j == 0
      {
        if j > 0 {
          AtShift(env, c, ops, j);
          CompletedStays(env, d, rest, j - 1);
        }
      }
    } else {
      var m := CompletedOnce(env, d, rest);
      k := m + 1;
      ShiftCompletes(env, c, ops, k);
      forall j: nat | CompletesAt(env, c, ops, j)
        ensures j == k
      {
        assert j > 0;
        ShiftCompletes(env, c, ops, j);
      }
    }
  }

  lemma ShiftCompletes(env: Environment, c: Conn, ops: seq<Op>, k: nat)
    requires 0 < k && ops != []
    ensures CompletesAt(env, c, ops, k) <==> CompletesAt(env, ApplyOp(env, c, ops[0]), ops[1..], k - 1)
  {
    if k < |ops| {
      AtShift(env, c, ops, k);
      AtShift(env, c, ops, k + 1);
    }
  }

  lemma {:induction false} IncompleteReportsNothing(env: Environment, c: Conn, ops: seq<Op>)
    requires Inv(c) && AtRest(c) && !RunOps(env, c, ops).completed
    ensures Reported(env, c, ops) == 0
    decreases |ops|
  {
    if ops != [] {
      var d := ApplyOp(env, c, ops[0]);
      OpKeeps(env, c, ops[0]);
      if d.completed {
        EndStatesAbsorb(env, d, ops[1..]);
      }
      IncompleteReportsNothing(env, d, ops[1..]);
    }
  }

  ghost predicate CompletedByCleanRead(env: Environment, c: Conn, ops: seq<Op>) {
    exists k: nat :: CompletesAt(env, c, ops, k) && CleanRead(ops[k])
  }

  /**
   * Over every run of operations completion is reported at most once, and exactly when the operation
   * that completes the handshake is a read whose queued packets are taken without error: not when it
   * is a timeout, and not when a queued packet fails behind the completion.
   */
  lemma ReportedIff(env: Environment, c: Conn, ops: seq<Op>)
    requires Inv(c) && AtRest(c)
    ensures Reported(env, c, ops) <= 1
    ensures Reported(env, c, ops) == 1 <==> CompletedByCleanRead(env, c, ops)
  {
    if c.completed {
      CompletedReportsNothing(env, c, ops);
      forall k | 0 <= k <= |ops|
        ensures At(env, c, ops, k).completed
      {
        CompletedStays(env, c, ops, k);
      }
    } else if RunOps(env, c, ops).completed {
      var k := CompletedOnce(env, c, ops);
    } else {
      IncompleteReportsNothing(env, c, ops);
      forall k: nat | CompletesAt(env, c, ops, k)
        ensures false
      {
        StaysCompleted(env, c, ops, k + 1);
      }
    }
  }

  lemma StaysCompleted(env: Environment, c: Conn, ops: seq<Op>, k: nat)
    requires Inv(c) && AtRest(c) && k <= |ops| && At(env, c, ops, k).completed
    ensures RunOps(env, c, ops).completed
  {
    RunKeeps(env, c, ops[..k]);
    EndStatesAbsorb(env, At(env, c, ops, k), ops[k..]);
    RunSplit(env, c, ops, k);
  }

  lemma {:induction false} RunSplit(env: Environment, c: Conn, ops: seq<Op>, k: nat)
    requires k <= |ops|
    ensures RunOps(env, At(env, c, ops, k), ops[k..]) == RunOps(env, c, ops)
    decreases k
  {
    if k == 0 {
      AtEnds(env, c, ops);
    } else {
      AtShift(env, c, ops, k);
      RunSplit(env, ApplyOp(env, c, ops[0]), ops[1..], k - 1);
      assert ops[1..][k - 1..] == ops[k..];
    }
  }

  // ------------------------------------------------------------ the token is used

  /** A call of `handshake` that succeeds without completing has used the token and waits. */
  lemma {:induction false} LoopUsesToken(env: Environment, c: Conn)
    requires !c.completed
    ensures var r := HandshakeLoop(env, c);
      r.ok && !r.conn.completed ==> r.conn.state == Waiting && !r.conn.handshakeRx
    decreases Measure(c)
  {
    IterationDecreases(env, c);
    if Iterate(env, c).Again? {
      LoopUsesToken(env, Iterate(env, c).conn);
    } else {
      IterationUsesToken(env, c);
    }
  }

  lemma IterationUsesToken(env: Environment, c: Conn)
    requires !c.completed && Iterate(env, c).Return?
    ensures var r := Iterate(env, c).outcome;
      r.ok && !r.conn.completed ==> r.conn.state == Waiting && !r.conn.handshakeRx
  {
  }

  /** So after a read that succeeds no handshake packets are left for later, those that had been queued
      included: the connection is completed or waits for more. */
  lemma ReadUsesPackets(env: Environment, c: Conn, input: Incoming, queued: Incoming)
    requires !c.completed && Read(env, c, input, queued).ok
    ensures var d := Read(env, c, input, queued).conn; d.completed || (d.state == Waiting && !d.handshakeRx)
  {
    var d := Take(c, input);
    LoopUsesToken(env, d);
    var r := HandshakeLoop(env, d).conn;
    if !r.completed {
      LoopUsesToken(env, Take(r, queued));
    }
  }

  // ------------------------------------------------------- a server that completes

  /** The peer's flights arrive whole and the server's can be generated. */
  ghost predicate Smooth(env: Environment) {
    && (forall n :: env.parse(Flight0, n) == Next(Flight2))
    && (forall n :: env.parse(Flight2, n) == Next(Flight4))
    && (forall n :: env.parse(Flight4, n) == Next(Flight6))
    && (forall f, n :: env.generate(f, n).Packets?)
  }

  function ParseSmoothly(f: Flight, n: nat): Parsed {
    match f
    case Flight0 => Next(Flight2)
    case Flight2 => Next(Flight4)
    case Flight4 => Next(Flight6)
    case _ => ParseFailed(None, false)
  }

  const SMOOTH: Environment := Environment((f, n) => Packets([Packet(0, Handshake(0, 0))]), ParseSmoothly, n => n)

  lemma SmoothExists()
    ensures Smooth(SMOOTH) && FollowsFlights(SMOOTH)
  {
  }

  const ARRIVAL: Op := ReadOp(Incoming(true, [], true), Incoming(false, [], true))

  lemma LoopNext(env: Environment, c: Conn)
    requires !c.completed && Iterate(env, c).Again?
    ensures !Iterate(env, c).conn.completed
    ensures HandshakeLoop(env, c) == HandshakeLoop(env, Iterate(env, c).conn)
  {
    IterationDecreases(env, c);
  }

  /** A server waiting for the peer's next flight. */
  predicate Awaits(c: Conn, flight: Flight) {
    c.state == Waiting && c.flight == flight && !c.completed && !c.handshakeRx && c.timer.Some? && c.rounds != []
  }

  /** Prepare a flight that is not the last, send it, and wait. */
  lemma PreparesAndWaits(env: Environment, c: Conn)
    requires c.state == Preparing && !c.completed && !c.handshakeRx && c.flight != Flight6
    requires env.generate(c.flight, c.asked).Packets?
    ensures var r := HandshakeLoop(env, c); r.ok && Awaits(r.conn, c.flight) && r.conn.retransmitCount == 0
    ensures HandshakeLoop(env, c).conn.retransmit == HasRetransmit(c.flight)
    ensures HandshakeLoop(env, c).conn.config == c.config
  {
    PrepareShape(env, c);
    LoopNext(env, c);
    var d := Iterate(env, c).conn;
    LoopNext(env, d);
    var e := Iterate(env, d).conn;
    assert Iterate(env, e) == Return(Outcome(e, true));
  }

  /** Prepare the last flight, send it once, and complete. */
  lemma PreparesAndCompletes(env: Environment, c: Conn)
    requires c.state == Preparing && !c.completed && c.flight == Flight6 && env.generate(c.flight, c.asked).Packets?
    ensures var r := HandshakeLoop(env, c);
      r.ok && r.conn.completed && r.conn.flight == Flight6 && r.conn.rounds != [] && |Writes(r.conn.rounds)| == 1
  {
    PrepareShape(env, c);
    LoopNext(env, c);
    var d := Iterate(env, c).conn;
    LoopNext(env, d);
    var e := Iterate(env, d).conn;
    assert Iterate(env, e) == Return(Outcome(e.(completed := true), true));
  }

  /** Consume the peer's flight and turn to the next one. */
  function Turned(c: Conn, flight: Flight): Conn {
    Consume(c).(entry := ByConsume, flight := flight, state := Preparing)
  }

  lemma Turns(env: Environment, c: Conn, flight: Flight)
    requires c.state == Waiting && !c.completed && c.handshakeRx
    requires env.parse(c.flight, c.asked) == Next(flight) && flight != Flight5
    ensures HandshakeLoop(env, c) == HandshakeLoop(env, Turned(c, flight))
  {
    LoopNext(env, c);
  }

  /** The peer's flight moves a waiting server to wait in the next of its own. */
  lemma ArrivalTurns(env: Environment, c: Conn, flight: Flight)
    requires Smooth(env) && Awaits(c, c.flight) && env.parse(c.flight, c.asked) == Next(flight)
    requires flight != Flight5 && flight != Flight6
    ensures var d := ApplyOp(env, c, ARRIVAL);
      Awaits(d, flight) && d.retransmitCount == 0 && d.retransmit == HasRetransmit(flight) && d.config == c.config
  {
    var t := Take(c, ARRIVAL.input);
    Turns(env, t, flight);
    PreparesAndWaits(env, Turned(t, flight));
  }

  /** Its first datagram finds the server before its empty flight 0, and takes it to flight 2. */
  lemma FirstArrival(env: Environment, config: Config)
    requires Smooth(env)
    ensures var d := ApplyOp(env, Fresh(config, false, None), ARRIVAL);
      Awaits(d, Flight2) && d.config == config
  {
    var c := Take(Fresh(config, false, None), ARRIVAL.input);
    PrepareShape(env, c);
    LoopNext(env, c);
    var d := Iterate(env, c).conn;
    LoopNext(env, d);
    var e := Iterate(env, d).conn;
    Turns(env, e, Flight2);
    PreparesAndWaits(env, Turned(e, Flight2));
  }

  /** Two datagrams take a smooth server to wait for the last flight of its peer. */
  lemma ReachesFlight4(env: Environment, config: Config)
    requires Smooth(env)
    ensures var c := RunOps(env, Fresh(config, false, None), [ARRIVAL, ARRIVAL]);
      Awaits(c, Flight4) && c.retransmitCount == 0 && c.retransmit && c.config == config
  {
    FirstArrival(env, config);
    var d := ApplyOp(env, Fresh(config, false, None), ARRIVAL);
    ArrivalTurns(env, d, Flight4);
    assert [ARRIVAL, ARRIVAL][1..] == [ARRIVAL] && [ARRIVAL][1..] == [];
    assert RunOps(env, d, [ARRIVAL]) == RunOps(env, ApplyOp(env, d, ARRIVAL), []);
  }

  /** The token of the peer's last flight makes a server complete. */
  lemma LastTurn(env: Environment, c: Conn)
    requires Smooth(env) && c.state == Waiting && c.flight == Flight4 && !c.completed && c.handshakeRx
    ensures var r := HandshakeLoop(env, c);
      r.ok && r.conn.completed && r.conn.flight == Flight6 && r.conn.rounds != [] && |Writes(r.conn.rounds)| == 1
  {
    Turns(env, c, Flight6);
    PreparesAndCompletes(env, Turned(c, Flight6));
  }

  lemma RunThen(env: Environment, c: Conn, ops: seq<Op>, op: Op)
    ensures RunOps(env, c, ops + [op]) == ApplyOp(env, RunOps(env, c, ops), op)
  {
    var all := ops + [op];
    RunSplit(env, c, all, |ops|);
    assert all[..|ops|] == ops && all[|ops|..] == [op] && [op][1..] == [];
    assert RunOps(env, ApplyOp(env, RunOps(env, c, ops), op), []) == ApplyOp(env, RunOps(env, c, ops), op);
  }

  function Completed(env: Environment, config: Config): Conn {
    RunOps(env, Fresh(config, false, None), [ARRIVAL, ARRIVAL, ARRIVAL])
  }

  /** Flights 0, 2, 4 and 6: a smooth server completes with its last flight written once. */
  lemma ServerCompletes(env: Environment, config: Config)
    requires Smooth(env)
    ensures var c := Completed(env, config);
      Reachable(env, c) && c.completed && c.flight == Flight6 && c.rounds != [] && |Writes(c.rounds)| == 1
  {
    var c0 := Fresh(config, false, None);
    ReachesFlight4(env, config);
    var c := RunOps(env, c0, [ARRIVAL, ARRIVAL]);
    LastTurn(env, Take(c, ARRIVAL.input));
    RunThen(env, c0, [ARRIVAL, ARRIVAL], ARRIVAL);
    assert [ARRIVAL, ARRIVAL] + [ARRIVAL] == [ARRIVAL, ARRIVAL, ARRIVAL];
    assert Stored(env, config, false, None, c0);
  }

  /**
   * From then on it writes no flight, whatever happens; the peer's repeated flight only leaves the
   * token set, and queues nothing.
   */
  lemma CompletedServerIsSilent(env: Environment, config: Config, ops: seq<Op>)
    requires Smooth(env)
    ensures RunOps(env, Completed(env, config), ops).rounds == Completed(env, config).rounds
    ensures ApplyOp(env, Completed(env, config), ARRIVAL) == Completed(env, config).(handshakeRx := true)
  {
    var c := Completed(env, config);
    ServerCompletes(env, config);
    ReachableInv(env, c);
    EndStatesAbsorb(env, c, ops);
    assert c.outgoing + AlertPackets(c, []) == c.outgoing;
  }

  // ------------------------------------------------------- a client that completes

  /** The server's flights arrive whole and the client's can be generated. */
  ghost predicate SmoothForClient(env: Environment) {
    && (forall n :: env.parse(Flight1, n) == Next(Flight3))
    && (forall n :: env.parse(Flight3, n) == Next(Flight5))
    && (forall n :: env.parse(Flight5, n) == Next(Flight5))
    && (forall f, n :: env.generate(f, n).Packets?)
  }

  /** A flight's arrival moves a waiting client to wait in the next of its own. */
  lemma ClientTurns(env: Environment, c: Conn, flight: Flight)
    requires SmoothForClient(env) && Awaits(c, c.flight) && env.parse(c.flight, c.asked) == Next(flight)
    requires c.flight != flight && flight != Flight6
    ensures Awaits(ApplyOp(env, c, ARRIVAL), flight)
  {
    var t := Take(c, ARRIVAL.input);
    LoopNext(env, t);
    PreparesAndWaits(env, Turned(t, flight));
  }

  /** The last arrival completes it, without anything more to write. */
  lemma ClientFinishes(env: Environment, c: Conn)
    requires SmoothForClient(env) && Awaits(c, Flight5)
    ensures var d := ApplyOp(env, c, ARRIVAL);
      d.completed && d.flight == Flight5 && d.rounds == c.rounds && d.outgoing == c.outgoing && d.timer.None?
  {
    var t := Take(c, ARRIVAL.input);
    assert c.outgoing + AlertPackets(c, []) == c.outgoing;
    LoopNext(env, t);
    var d := Iterate(env, t).conn;
    assert Iterate(env, d) == Return(Outcome(d.(completed := true), true));
    var e := d.(completed := true);
    assert e.outgoing + AlertPackets(e, []) == e.outgoing;
  }

  /** Flights 1, 3 and 5: a smooth client completes in the third read after its first call. */
  lemma ClientCompletes(env: Environment, config: Config)
    requires SmoothForClient(env)
    ensures var c := HandshakeLoop(env, Fresh(config, true, None)).conn;
      var d := RunOps(env, c, [ARRIVAL, ARRIVAL, ARRIVAL]);
      Awaits(c, Flight1) && d.completed && d.flight == Flight5
  {
    PreparesAndWaits(env, Fresh(config, true, None));
    var c := HandshakeLoop(env, Fresh(config, true, None)).conn;
    ClientTurns(env, c, Flight3);
    var d := ApplyOp(env, c, ARRIVAL);
    ClientTurns(env, d, Flight5);
    var e := ApplyOp(env, d, ARRIVAL);
    ClientFinishes(env, e);
    ThreeOps(env, c, ARRIVAL);
  }

  lemma ThreeOps(env: Environment, c: Conn, op: Op)
    ensures RunOps(env, c, [op, op, op]) == ApplyOp(env, ApplyOp(env, ApplyOp(env, c, op), op), op)
  {
    RunThen(env, c, [op, op], op);
    RunThen(env, c, [op], op);
    RunThen(env, c, [], op);
    assert [] + [op] == [op] && [op] + [op] == [op, op] && [op, op] + [op] == [op, op, op];
  }

  // --------------------------------------------------------------- failures alert

  /** A datagram that is refused moves nothing: its alerts go out at the local epoch, and handshake packets
      that came with it wait for the next call. */
  lemma RefusedDatagram(env: Environment, c: Conn, input: Incoming, queued: Incoming)
    requires !input.ok
    ensures var r := Read(env, c, input, queued);
      && !r.ok
      && r.conn.state == c.state && r.conn.flight == c.flight && r.conn.rounds == c.rounds
      && r.conn.handshakeRx == (c.handshakeRx || input.handshake)
      && |r.conn.outgoing| == |c.outgoing| + |input.alerts| && c.outgoing <= r.conn.outgoing
      && forall i :: 0 <= i < |input.alerts| ==>
           r.conn.outgoing[|c.outgoing| + i] == Packet(c.localEpoch, Alert(input.alerts[i]))
  {
  }

  /** A flight that does not parse is answered by its alert and ends the call; only a fatal one is an error. */
  lemma ParseFailureAlerts(env: Environment, c: Conn, code: nat, fatal: bool)
    requires c.state == Waiting && !c.completed && c.handshakeRx
    requires env.parse(c.flight, c.asked) == ParseFailed(Some(code), fatal)
    ensures var r := HandshakeLoop(env, c);
      && r.ok == !fatal
      && r.conn.outgoing == c.outgoing + [Packet(c.localEpoch, Alert(code))]
      && r.conn.state == Waiting && r.conn.flight == c.flight && r.conn.rounds == c.rounds
  {
    assert Iterate(env, c).Return?;
  }

  /** So is a flight that cannot be generated; one that fails without an error is skipped. */
  lemma GenerateFailureAlerts(env: Environment, c: Conn, code: nat)
    requires c.state == Preparing && !c.completed && env.generate(c.flight, c.asked) == GenerateFailed(Some(code), true)
    ensures var r := HandshakeLoop(env, c);
      && !r.ok
      && r.conn.outgoing == c.outgoing + [Packet(Restarted(c).localEpoch, Alert(code))]
      && r.conn.state == Preparing && r.conn.flight == c.flight
  {
    assert Iterate(env, c).Return?;
  }

  // ------------------------------------------------------- completions not reported

  /** The peer's last flight together with a queued packet that fails. */
  const BAD_QUEUE: Op := ReadOp(Incoming(true, [], true), Incoming(false, [], false))

  /** The peer's last flight in a datagram whose reading fails after it. */
  const BAD_READ: Op := ReadOp(Incoming(true, [], false), Incoming(false, [], true))

  predicate CompletesUnreported(env: Environment, config: Config, ops: seq<Op>) {
    var c := Fresh(config, false, None);
    RunOps(env, c, ops).completed && Reported(env, c, ops) == 0
  }

  lemma FreshIsStable(config: Config)
    ensures Inv(Fresh(config, false, None)) && AtRest(Fresh(config, false, None))
  {
  }

  /** The completing operation is the last of the run and no read with a clean queue. */
  lemma Unreported(env: Environment, config: Config, ops: seq<Op>, op: Op)
    requires var c := RunOps(env, Fresh(config, false, None), ops);
      && !c.completed
      && ApplyOp(env, c, op).completed
      && !CleanRead(op)
    ensures CompletesUnreported(env, config, ops + [op])
  {
    var c0, all := Fresh(config, false, None), ops + [op];
    RunThen(env, c0, ops, op);
    FreshIsStable(config);
    EndOfRun(env, c0, ops, op);
    var k := CompletedOnce(env, c0, all);
    assert CompletesAt(env, c0, all, |ops|);
  }

  lemma EndOfRun(env: Environment, c: Conn, ops: seq<Op>, op: Op)
    ensures var all := ops + [op];
      At(env, c, all, |ops|) == RunOps(env, c, ops) && At(env, c, all, |ops| + 1) == RunOps(env, c, all)
  {
    var all := ops + [op];
    assert all[..|ops|] == ops && all[..|ops| + 1] == all;
  }

  /** A queued packet that fails in the completing read loses the event. */
  lemma QueueErrorLosesReport(env: Environment, config: Config)
    requires Smooth(env)
    ensures CompletesUnreported(env, config, [ARRIVAL, ARRIVAL] + [BAD_QUEUE])
  {
    ReachesFlight4(env, config);
    var c := RunOps(env, Fresh(config, false, None), [ARRIVAL, ARRIVAL]);
    LastTurn(env, Take(c, BAD_QUEUE.input));
    Unreported(env, config, [ARRIVAL, ARRIVAL], BAD_QUEUE);
  }

  /** A retransmission finds the token of a failed read and completes outside any read. */
  lemma TimeoutLosesReport(env: Environment, config: Config) returns (now: nat)
    requires Smooth(env) && config.maximumRetransmitNumber >= 1
    ensures CompletesUnreported(env, config, [ARRIVAL, ARRIVAL] + [BAD_READ] + [TimeoutOp(now)])
  {
    var c0 := Fresh(config, false, None);
    ReachesFlight4(env, config);
    RunThen(env, c0, [ARRIVAL, ARRIVAL], BAD_READ);
    var c := RunOps(env, c0, [ARRIVAL, ARRIVAL] + [BAD_READ]);
    now := c.timer.value;
    var d := TimedOut(env, c.(timer := None)).value;
    assert d.state == Sending && d.flight == Flight4;
    LoopNext(env, d);
    LastTurn(env, Iterate(env, d).conn);
    Unreported(env, config, [ARRIVAL, ARRIVAL] + [BAD_READ], TimeoutOp(now));
  }
}
