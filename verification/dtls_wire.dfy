/** What the handshake machine puts on the wire: every write of every flight, every alert, and nothing else. */
module DtlsWire {
  import opened Options
  import opened Seqs
  import opened Dtls
  import opened DtlsRuns

  // -------------------------------------------------------------- interleavings

  /** `all` is `a` and `b` merged: each in order, nothing lost and nothing repeated. */
  predicate Merged(a: seq<Packet>, b: seq<Packet>, all: seq<Packet>)
    decreases |all|
  {
    if all == [] then a == [] && b == []
    else
      var last, front := all[|all| - 1], all[..|all| - 1];
      || (a != [] && a[|a| - 1] == last && Merged(a[..|a| - 1], b, front))
      || (b != [] && b[|b| - 1] == last && Merged(a, b[..|b| - 1], front))
  }

  lemma {:induction false} MergedLeft(a: seq<Packet>, b: seq<Packet>, all: seq<Packet>, more: seq<Packet>)
    requires Merged(a, b, all)
    ensures Merged(a + more, b, all + more)
    decreases |more|
  {
    if more == [] {
      assert a + more == a && all + more == all;
    } else {
      var n := |more| - 1;
      MergedLeft(a, b, all, more[..n]);
      assert (a + more)[..|a + more| - 1] == a + more[..n] && (all + more)[..|all + more| - 1] == all + more[..n];
    }
  }

  lemma {:induction false} MergedRight(a: seq<Packet>, b: seq<Packet>, all: seq<Packet>, more: seq<Packet>)
    requires Merged(a, b, all)
    ensures Merged(a, b + more, all + more)
    decreases |more|
  {
    if more == [] {
      assert b + more == b && all + more == all;
    } else {
      var n := |more| - 1;
      MergedRight(a, b, all, more[..n]);
      assert (b + more)[..|b + more| - 1] == b + more[..n] && (all + more)[..|all + more| - 1] == all + more[..n];
    }
  }

  // ------------------------------------------------------------- the whole history

  function FlatWrites(writes: seq<seq<Packet>>): seq<Packet> {
    if writes == [] then [] else FlatWrites(writes[..|writes| - 1]) + writes[|writes| - 1]
  }

  /** Every write of every flight, in order. */
  function Flat(rounds: Rounds): seq<Packet> {
    if rounds == [] then [] else Flat(rounds[..|rounds| - 1]) + FlatWrites(rounds[|rounds| - 1])
  }

  lemma FlatNewRound(rounds: Rounds)
    ensures Flat(rounds + [[]]) == Flat(rounds)
  {
    assert (rounds + [[]])[..|rounds|] == rounds;
    assert Flat(rounds) + FlatWrites([]) == Flat(rounds);
  }

  lemma FlatWritesSnoc(writes: seq<seq<Packet>>, packets: seq<Packet>)
    ensures FlatWrites(writes + [packets]) == FlatWrites(writes) + packets
  {
    assert (writes + [packets])[..|writes|] == writes;
  }

  lemma FlatLog(rounds: Rounds, packets: seq<Packet>)
    ensures Flat(Log(rounds, packets)) == Flat(rounds) + packets
  {
    if rounds == [] {
      assert [[packets]][..0] == [] && FlatWrites([packets]) == packets by {
        FlatWritesSnoc([], packets);
        assert [] + [packets] == [packets];
      }
      assert Flat([[packets]]) == Flat([]) + packets;
    } else {
      var n := |rounds| - 1;
      FlatWritesSnoc(rounds[n], packets);
      assert Log(rounds, packets)[..n] == rounds[..n];
      Regroup(Flat(rounds[..n]), FlatWrites(rounds[n]), packets);
    }
  }

  // --------------------------------------------------------------- conservation

  /** What left before, then what is queued, are the writes of the flights and the alerts raised. */
  predicate Balanced(c: Conn, sent: seq<Packet>) {
    Merged(Flat(c.rounds), c.raised, sent + c.outgoing)
  }

  /** How a step may change the three histories. */
  predicate Writes1(c: Conn, d: Conn, packets: seq<Packet>) {
    Flat(d.rounds) == Flat(c.rounds) + packets && d.raised == c.raised && d.outgoing == c.outgoing + packets
  }

  predicate Alerts1(c: Conn, d: Conn, packets: seq<Packet>) {
    Flat(d.rounds) == Flat(c.rounds) && d.raised == c.raised + packets && d.outgoing == c.outgoing + packets
  }

  lemma WritesBalanced(c: Conn, d: Conn, packets: seq<Packet>, sent: seq<Packet>)
    requires Balanced(c, sent) && Writes1(c, d, packets)
    ensures Balanced(d, sent)
  {
    MergedLeft(Flat(c.rounds), c.raised, sent + c.outgoing, packets);
    Regroup(sent, c.outgoing, packets);
  }

  lemma AlertsBalanced(c: Conn, d: Conn, packets: seq<Packet>, sent: seq<Packet>)
    requires Balanced(c, sent) && Alerts1(c, d, packets)
    ensures Balanced(d, sent)
  {
    MergedRight(Flat(c.rounds), c.raised, sent + c.outgoing, packets);
    Regroup(sent, c.outgoing, packets);
  }

  function AlertOf(c: Conn, alert: Option<nat>): seq<Packet> {
    if alert.None? then [] else [Packet(c.localEpoch, Alert(alert.value))]
  }

  lemma NotifyAlerts(c: Conn, alert: Option<nat>)
    ensures Alerts1(c, Notify(c, alert), AlertOf(c, alert))
  {
  }

  lemma RestartedQuiet(c: Conn)
    ensures Alerts1(c, Restarted(c), [])
  {
    FlatNewRound(c.rounds);
  }

  lemma PrepareBalanced(env: Environment, c: Conn, sent: seq<Packet>)
    requires Balanced(c, sent)
    ensures Balanced(Prepare(env, c).conn, sent)
  {
    var d := Restarted(c);
    RestartedQuiet(c);
    AlertsBalanced(c, d, [], sent);
    match env.generate(c.flight, c.asked) {
      case Packets(packets) =>
        assert Alerts1(d, Buffer(d, packets), []);
        AlertsBalanced(d, Buffer(d, packets), [], sent);
      case GenerateFailed(alert, _) =>
        NotifyAlerts(d, alert);
        AlertsBalanced(d, Notify(d, alert), AlertOf(d, alert), sent);
    }
  }

  lemma SendBalanced(env: Environment, c: Conn, sent: seq<Packet>)
    requires Balanced(c, sent)
    ensures Balanced(Send(env, c).conn, sent)
  {
    var packets := if c.flights.Some? then c.flights.value else [];
    var d := Send(env, c).conn;
    if c.flights.Some? {
      FlatLog(c.rounds, packets);
    }
    assert Writes1(c, d, packets);
    WritesBalanced(c, d, packets, sent);
  }

  lemma ParsedBalanced(c: Conn, d: Conn, alert: Option<nat>, sent: seq<Packet>)
    requires Balanced(c, sent) && d.rounds == c.rounds && d.raised == c.raised && d.outgoing == c.outgoing
    ensures Balanced(d, sent) && Balanced(Notify(d, alert), sent)
  {
    NotifyAlerts(d, alert);
    AlertsBalanced(d, Notify(d, alert), AlertOf(d, alert), sent);
  }

  lemma WaitBalanced(env: Environment, c: Conn, sent: seq<Packet>)
    requires Balanced(c, sent)
    ensures Balanced(Wait(env, c).conn, sent)
  {
    var p := env.parse(c.flight, c.asked);
    ParsedBalanced(c, Consume(c).(entry := ByConsume), if p.ParseFailed? then p.alert else None, sent);
  }

  lemma FinishBalanced(env: Environment, c: Conn, sent: seq<Packet>)
    requires Balanced(c, sent)
    ensures Balanced(Finish(env, c).conn, sent)
  {
    var p := env.parse(c.flight, c.asked);
    ParsedBalanced(c, Consume(c), if p.ParseFailed? then p.alert else None, sent);
  }

  lemma StepBalanced(env: Environment, c: Conn, sent: seq<Packet>)
    requires Balanced(c, sent)
    ensures Balanced(StepOf(env, c).conn, sent)
  {
    match c.state {
      case Preparing => PrepareBalanced(env, c, sent);
      case Sending => SendBalanced(env, c, sent);
      case Waiting => WaitBalanced(env, c, sent);
      case Finished => FinishBalanced(env, c, sent);
      case Errored =>
    }
  }

  lemma IterateBalanced(env: Environment, c: Conn, sent: seq<Packet>)
    requires !c.completed && Balanced(c, sent)
    ensures Balanced(if Iterate(env, c).Again? then Iterate(env, c).conn else Iterate(env, c).outcome.conn, sent)
  {
    StepBalanced(env, c, sent);
  }

  lemma {:induction false} LoopBalanced(env: Environment, c: Conn, sent: seq<Packet>)
    requires !c.completed && Balanced(c, sent)
    ensures Balanced(HandshakeLoop(env, c).conn, sent)
    decreases Measure(c)
  {
    IterationDecreases(env, c);
    IterateBalanced(env, c, sent);
    if Iterate(env, c).Again? {
      LoopBalanced(env, Iterate(env, c).conn, sent);
    }
  }

  lemma TakeBalanced(c: Conn, input: Incoming, sent: seq<Packet>)
    requires Balanced(c, sent)
    ensures Balanced(Take(c, input), sent)
  {
    AlertsBalanced(c, Take(c, input), AlertPackets(c, input.alerts), sent);
  }

  lemma ReadBalanced(env: Environment, c: Conn, input: Incoming, queued: Incoming, sent: seq<Packet>)
    requires Balanced(c, sent)
    ensures Balanced(Read(env, c, input, queued).conn, sent)
  {
    var d := Take(c, input);
    TakeBalanced(c, input, sent);
    if input.ok && !d.completed {
      LoopBalanced(env, d, sent);
      var r := HandshakeLoop(env, d).conn;
      TakeBalanced(r, queued, sent);
      if !r.completed {
        LoopBalanced(env, Take(r, queued), sent);
      }
    }
  }

  lemma TimeoutBalanced(env: Environment, c: Conn, now: nat, sent: seq<Packet>)
    requires Balanced(c, sent)
    ensures Balanced(Timeout(env, c, now).conn, sent)
  {
    var d := c.(timer := None);
    if TimerFires(c, now) && !c.completed && TimedOut(env, d).Some? {
      LoopBalanced(env, TimedOut(env, d).value, sent);
    }
  }

  /** Transmitting moves what is queued to what left. */
  lemma TransmitBalanced(c: Conn, sent: seq<Packet>)
    requires Balanced(c, sent)
    ensures Balanced(c.(outgoing := []), sent + c.outgoing)
  {
    assert sent + c.outgoing + [] == sent + c.outgoing;
  }

  // ---------------------------------------------------------------------- runs

  /** What a run of operations transmits. */
  function Sent(env: Environment, c: Conn, ops: seq<Op>): seq<Packet>
    decreases |ops|
  {
    if ops == [] then []
    else (if ops[0].TransmitOp? then c.outgoing else []) + Sent(env, ApplyOp(env, c, ops[0]), ops[1..])
  }

  lemma OpBalanced(env: Environment, c: Conn, op: Op, sent: seq<Packet>)
    requires Balanced(c, sent)
    ensures Balanced(ApplyOp(env, c, op), sent + if op.TransmitOp? then c.outgoing else [])
  {
    match op {
      case ReadOp(input, queued) => ReadBalanced(env, c, input, queued, sent);
      case TimeoutOp(now) => TimeoutBalanced(env, c, now, sent);
      case TransmitOp => assert sent + c.outgoing + [] == sent + c.outgoing;
    }
    assert sent + [] == sent;
  }

  lemma {:induction false} RunBalanced(env: Environment, c: Conn, ops: seq<Op>, sent: seq<Packet>)
    requires Balanced(c, sent)
    ensures Balanced(RunOps(env, c, ops), sent + Sent(env, c, ops))
    decreases |ops|
  {
    if ops == [] {
      assert sent + [] == sent;
    } else {
      var out := if ops[0].TransmitOp? then c.outgoing else [];
      OpBalanced(env, c, ops[0], sent);
      RunBalanced(env, ApplyOp(env, c, ops[0]), ops[1..], sent + out);
      Regroup(sent, out, Sent(env, ApplyOp(env, c, ops[0]), ops[1..]));
    }
  }

  lemma StoredBalanced(env: Environment, config: Config, isClient: bool, saved: Option<Saved>, c: Conn)
    requires Stored(env, config, isClient, saved, c)
    ensures Balanced(c, [])
  {
    var c0 := Fresh(config, isClient, saved);
    assert Balanced(c0, []);
    LoopBalanced(env, c0, []);
  }

  /**
   * Over every run of operations on a stored connection, what was transmitted and then what is queued are
   * in order the writes of the flights, and in order the alerts raised: none lost and none repeated.
   */
  lemma WireCarriesWrites(
    env: Environment, config: Config, isClient: bool, saved: Option<Saved>, c: Conn, ops: seq<Op>)
    requires Stored(env, config, isClient, saved, c)
    ensures var d := RunOps(env, c, ops); Merged(Flat(d.rounds), d.raised, Sent(env, c, ops) + d.outgoing)
  {
    StoredBalanced(env, config, isClient, saved, c);
    RunBalanced(env, c, ops, []);
    assert [] + Sent(env, c, ops) == Sent(env, c, ops);
  }
}
