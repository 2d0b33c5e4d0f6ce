/** The local epoch, at which alerts go out: that of the latest flight that raised it. */
module DtlsEpochs {
  import opened Options
  import opened Dtls
  import opened DtlsRuns
  import opened DtlsFlights

  /** The largest epoch among generated packets, before the offset. */
  function HighestEpoch(packets: seq<Packet>): (r: nat)
    ensures forall i :: 0 <= i < |packets| ==> packets[i].epoch <= r
    ensures r == 0 || exists i :: 0 <= i < |packets| && packets[i].epoch == r
  {
    if packets == [] then 0
    else
      var rest, last := HighestEpoch(packets[..|packets| - 1]), packets[|packets| - 1].epoch;
      if last > rest then last else rest
  }

  lemma NumberedPrefix(packets: seq<Packet>, epoch: nat, sequence: nat, n: nat)
    requires n <= |packets|
    ensures Numbered(packets, epoch, sequence)[..n] == Numbered(packets[..n], epoch, sequence)
  {
    forall i | 0 <= i < n
      ensures Numbered(packets, epoch, sequence)[i] == Numbered(packets[..n], epoch, sequence)[i]
    {
      assert packets[..n][..i] == packets[..i];
    }
  }

  lemma {:induction false} TopOfNumbered(packets: seq<Packet>, epoch: nat, sequence: nat)
    ensures TopEpoch(Numbered(packets, epoch, sequence), epoch) == epoch + HighestEpoch(packets)
    decreases |packets|
  {
    if packets != [] {
      var n := |packets| - 1;
      NumberedPrefix(packets, epoch, sequence, n);
      TopOfNumbered(packets[..n], epoch, sequence);
    }
  }

  /** The local epoch after the first `n` requests: flights 0 and 1 start over at 0, and a flight with
      packets above the initial epoch raises it to its highest. */
  function EpochAfter(env: Environment, initial: nat, prepared: seq<Ask>, start: nat, n: nat): nat
    requires n <= |prepared|
  {
    if n == 0 then start
    else
      var ask := prepared[n - 1];
      var packets := GeneratedFor(env, ask);
      if packets.Some? && HighestEpoch(packets.value) > 0 then initial + HighestEpoch(packets.value)
      else if ask.flight == Flight0 || ask.flight == Flight1 then 0
      else EpochAfter(env, initial, prepared, start, n - 1)
  }

  predicate EpochFits(env: Environment, start: nat, c: Conn) {
    c.localEpoch == EpochAfter(env, c.config.initialEpoch, c.prepared, start, |c.prepared|)
  }

  lemma {:induction false} EpochStays(env: Environment, initial: nat, prepared: seq<Ask>, start: nat, ask: Ask, n: nat)
    requires n <= |prepared|
    ensures EpochAfter(env, initial, prepared + [ask], start, n) == EpochAfter(env, initial, prepared, start, n)
  {
    if n > 0 {
      EpochStays(env, initial, prepared, start, ask, n - 1);
    }
  }

  lemma PreparedEpoch(env: Environment, c: Conn)
    ensures var g := GeneratedFor(env, Ask(c.flight, c.asked));
      Prepare(env, c).conn.localEpoch ==
        if g.Some? && HighestEpoch(g.value) > 0 then c.config.initialEpoch + HighestEpoch(g.value)
        else if c.flight == Flight0 || c.flight == Flight1 then 0
        else c.localEpoch
  {
    var g := GeneratedFor(env, Ask(c.flight, c.asked));
    if g.Some? {
      TopOfNumbered(g.value, c.config.initialEpoch, Restarted(c).sendSequence);
    }
  }

  lemma PrepareEpoch(env: Environment, start: nat, c: Conn)
    requires EpochFits(env, start, c)
    ensures EpochFits(env, start, Prepare(env, c).conn)
  {
    PreparedEpoch(env, c);
    PreparedPhase(env, c);
    PrepareShape(env, c);
    EpochStays(env, c.config.initialEpoch, c.prepared, start, Ask(c.flight, c.asked), |c.prepared|);
  }

  /** No other step touches the epoch. */
  lemma OtherStepsEpoch(env: Environment, c: Conn)
    requires c.state != Preparing
    ensures var d := StepOf(env, c).conn;
      d.localEpoch == c.localEpoch && d.prepared == c.prepared && d.config == c.config
  {
  }

  lemma {:induction false} LoopEpoch(env: Environment, start: nat, c: Conn)
    requires EpochFits(env, start, c) && !c.completed
    ensures EpochFits(env, start, HandshakeLoop(env, c).conn)
    decreases Measure(c)
  {
    IterationDecreases(env, c);
    if c.state == Preparing {
      PrepareEpoch(env, start, c);
    } else {
      OtherStepsEpoch(env, c);
    }
    if Iterate(env, c).Again? {
      LoopEpoch(env, start, Iterate(env, c).conn);
    }
  }

  lemma OpEpoch(env: Environment, start: nat, c: Conn, op: Op)
    requires EpochFits(env, start, c)
    ensures EpochFits(env, start, ApplyOp(env, c, op))
  {
    match op {
      case ReadOp(input, queued) =>
        var d := Take(c, input);
        if input.ok && !d.completed {
          LoopEpoch(env, start, d);
          var r := Take(HandshakeLoop(env, d).conn, queued);
          if !r.completed {
            LoopEpoch(env, start, r);
          }
        }
      case TimeoutOp(now) =>
        var d := c.(timer := None);
        if !d.completed && TimedOut(env, d).Some? {
          LoopEpoch(env, start, TimedOut(env, d).value);
        }
      case TransmitOp =>
    }
  }

  lemma {:induction false} RunEpoch(env: Environment, start: nat, c: Conn, ops: seq<Op>)
    requires EpochFits(env, start, c)
    ensures EpochFits(env, start, RunOps(env, c, ops))
    decreases |ops|
  {
    if ops != [] {
      OpEpoch(env, start, c, ops[0]);
      RunEpoch(env, start, ApplyOp(env, c, ops[0]), ops[1..]);
    }
  }

  /** Over every run on a stored connection the local epoch is the one the flights prepared so far give it. */
  lemma EpochFollowsFlights(
    env: Environment, config: Config, isClient: bool, saved: Option<Saved>, c: Conn, ops: seq<Op>)
    requires Stored(env, config, isClient, saved, c)
    ensures var d := RunOps(env, c, ops);
      var start := if saved.Some? then saved.value.localEpoch else 0;
      d.localEpoch == EpochAfter(env, d.config.initialEpoch, d.prepared, start, |d.prepared|)
  {
    var start, c0 := if saved.Some? then saved.value.localEpoch else 0, Fresh(config, isClient, saved);
    assert EpochFits(env, start, c0);
    if isClient {
      LoopEpoch(env, start, c0);
    }
    RunEpoch(env, start, c, ops);
  }
}
