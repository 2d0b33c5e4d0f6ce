/** The connection object and the endpoint that owns connections, updated in place. */
module DtlsConn {
  import opened Options
  import opened Dtls
  import Runs = DtlsRuns
  import Wire = DtlsWire

  type Addr = nat

  lemma HandshakesNext(packets: seq<Packet>, i: nat)
    requires i < |packets|
    ensures HandshakesIn(packets[..i + 1])
         == HandshakesIn(packets[..i]) + if packets[i].content.Handshake? then 1 else 0
  {
    assert packets[..i + 1][..i] == packets[..i];
  }

  lemma TopEpochNext(packets: seq<Packet>, p: Packet, epoch: nat)
    ensures var top := TopEpoch(packets, epoch);
      TopEpoch(packets + [p], epoch) == if p.epoch > top then p.epoch else top
  {
    assert (packets + [p])[..|packets|] == packets;
  }

  class DTLSConn {
    const config: Config
    const env: Environment
    var currentHandshakeState: HandshakeState
    var handshakeCompleted: bool
    var currentRetransmitTimer: Option<nat>
    var currentRetransmitCount: nat
    var currentFlight: Flight
    var flights: Option<seq<Packet>>
    var retransmit: bool
    var handshakeRx: bool
    var handshakeSendSequence: nat
    var localEpoch: nat
    var outgoingPackets: seq<Packet>
    // Questions put to the environment so far, then the history the properties speak of.
    var asked: nat
    ghost var rounds: Rounds
    ghost var entry: Entry
    ghost var raised: seq<Packet>
    ghost var prepared: seq<Ask>

    ghost function View(): Conn
      reads this
    {
      Conn(config, currentHandshakeState, handshakeCompleted, currentRetransmitTimer, currentRetransmitCount,
           currentFlight, flights, retransmit, handshakeRx, handshakeSendSequence, localEpoch, outgoingPackets,
           asked, rounds, entry, raised, prepared)
    }

    constructor (config: Config, env: Environment, isClient: bool, saved: Option<Saved>)
      ensures View() == Fresh(config, isClient, saved) && this.env == env
    {
      this.config, this.env := config, env;
      if saved.Some? {
        currentFlight := if isClient then Flight5 else Flight6;
        currentHandshakeState := Finished;
      } else {
        currentFlight := if isClient then Flight1 else Flight0;
        currentHandshakeState := Preparing;
      }
      handshakeCompleted, currentRetransmitTimer, currentRetransmitCount := false, None, 0;
      flights, retransmit, handshakeRx := None, false, false;
      handshakeSendSequence := if saved.Some? then saved.value.sendSequence else 0;
      localEpoch := if saved.Some? then saved.value.localEpoch else 0;
      outgoingPackets := [];
      asked, rounds, entry, raised, prepared := 0, [], NeverWaited, [], [];
    }

    method WritePackets(packets: seq<Packet>)
      modifies this`outgoingPackets
      ensures outgoingPackets == old(outgoingPackets) + packets
    {
      var i := 0;
      while i < |packets|
        invariant 0 <= i <= |packets| && outgoingPackets == old(outgoingPackets) + packets[..i]
      {
        outgoingPackets := outgoingPackets + [packets[i]];
        i := i + 1;
      }
    }

    method SendAlert(alert: Option<nat>)
      modifies this`outgoingPackets, this`raised
      ensures View() == Notify(old(View()), alert)
    {
      if alert.Some? {
        WritePackets([Packet(localEpoch, Alert(alert.value))]);
        raised := raised + [Packet(localEpoch, Alert(alert.value))];
      }
    }

    /** Offset the epochs and number the handshake messages of a generated flight. */
    static method Stamp(packets: seq<Packet>, epoch: nat, sequence: nat)
      returns (numbered: seq<Packet>, nextSequence: nat, nextEpoch: nat)
      ensures numbered == Numbered(packets, epoch, sequence)
      ensures nextSequence == sequence + HandshakesIn(packets)
      ensures nextEpoch == TopEpoch(numbered, epoch)
    {
      numbered, nextSequence, nextEpoch := [], sequence, epoch;
      var i := 0;
      while i < |packets|
        invariant 0 <= i <= |packets|
        invariant |numbered| == i && forall k :: 0 <= k < i ==> numbered[k] == Stamped(packets, k, epoch, sequence)
        invariant nextEpoch == TopEpoch(numbered, epoch)
        invariant nextSequence == sequence + HandshakesIn(packets[..i])
      {
        var p := packets[i].(epoch := packets[i].epoch + epoch);
        if p.epoch > nextEpoch {
          nextEpoch := p.epoch;
        }
        HandshakesNext(packets, i);
        if p.content.Handshake? {
          p := p.(content := p.content.(messageSequence := nextSequence % U16));
          nextSequence := nextSequence + 1;
        }
        TopEpochNext(numbered, p, epoch);
        numbered := numbered + [p];
        i := i + 1;
      }
      assert packets[..i] == packets;
    }

    /** Drop the old flight and ask for a new one. */
    method Generate() returns (generated: Generated)
      modifies this
      ensures generated == env.generate(old(currentFlight), old(asked))
      ensures View() == Restarted(old(View()))
    {
      generated := StartRound();
      ResetNumbering();
    }

    method StartRound() returns (generated: Generated)
      modifies this`flights, this`currentRetransmitCount, this`retransmit, this`rounds, this`prepared, this`asked
      ensures generated == env.generate(currentFlight, old(asked))
      ensures View() == Dropped(old(View()))
    {
      DropFlight();
      generated := env.generate(currentFlight, asked);
      rounds, prepared := rounds + [[]], prepared + [Ask(currentFlight, asked)];
      asked := asked + 1;
    }

    method DropFlight()
      modifies this`flights, this`currentRetransmitCount, this`retransmit
      ensures View() == old(View()).(flights := None, retransmitCount := 0, retransmit := HasRetransmit(currentFlight))
    {
      flights := None;
      currentRetransmitCount := 0;
      retransmit := HasRetransmit(currentFlight);
    }

    /** What generating a flight does to the numbering state. */
    method ResetNumbering()
      modifies this`handshakeSendSequence, this`localEpoch
      ensures View() == GenerateEffect(old(View()))
    {
      if currentFlight == Flight2 {
        handshakeSendSequence := 0;
      } else if currentFlight == Flight0 || currentFlight == Flight1 {
        localEpoch := 0;
      }
    }

    method BufferFlight(packets: seq<Packet>)
      modifies this`flights, this`handshakeSendSequence, this`localEpoch
      ensures View() == Buffer(old(View()), packets)
    {
      var numbered, nextSequence, nextEpoch := Stamp(packets, config.initialEpoch, handshakeSendSequence);
      flights := Some(numbered);
      handshakeSendSequence := nextSequence;
      if nextEpoch != config.initialEpoch {
        localEpoch := nextEpoch;
      }
    }

    method Prepare() returns (next: Option<HandshakeState>)
      modifies this
      ensures Leg(View(), next) == Dtls.Prepare(env, old(View()))
    {
      var generated := Generate();
      next := Some(Sending);
      match generated {
        case Packets(packets) =>
          BufferFlight(packets);
        case GenerateFailed(alert, fatal) =>
          SendAlert(alert);
          if fatal {
            next := None;
          }
      }
    }

    method Send() returns (next: Option<HandshakeState>)
      modifies this
      ensures Leg(View(), next) == Dtls.Send(env, old(View()))
    {
      if flights.Some? {
        WritePackets(flights.value);
        rounds := Log(rounds, flights.value);
      }
      if IsLastSendFlight(currentFlight) {
        next := Some(Finished);
      } else {
        currentRetransmitTimer := Some(env.clock(asked) + config.retransmitInterval);
        asked := asked + 1;
        entry := BySend;
        next := Some(Waiting);
      }
    }

    /** Consume the token of pending packets, stop the timer and parse what is cached. */
    method ParseCached() returns (parsed: Parsed)
      modifies this`handshakeRx, this`currentRetransmitTimer, this`asked
      ensures parsed == env.parse(currentFlight, old(asked))
      ensures View() == Consume(old(View()))
    {
      handshakeRx := false;
      currentRetransmitTimer := None;
      parsed := env.parse(currentFlight, asked);
      asked := asked + 1;
    }

    method Wait() returns (next: Option<HandshakeState>)
      modifies this
      ensures Leg(View(), next) == Dtls.Wait(env, old(View()))
    {
      next := Some(Waiting);
      if handshakeRx {
        var parsed := ParseCached();
        entry := ByConsume;
        match parsed {
          case ParseFailed(alert, fatal) =>
            SendAlert(alert);
            if fatal {
              next := None;
            }
          case Next(flight) =>
            if IsLastRecvFlight(flight) && currentFlight == flight {
              next := Some(Finished);
            } else {
              currentFlight := flight;
              next := Some(Preparing);
            }
        }
      }
    }

    method Finish() returns (next: Option<HandshakeState>)
      modifies this
      ensures Leg(View(), next) == Dtls.Finish(env, old(View()))
    {
      next := Some(Finished);
      if handshakeRx {
        var parsed := ParseCached();
        if parsed.ParseFailed? {
          SendAlert(parsed.alert);
          if parsed.fatal {
            next := None;
          }
        }
      }
    }

    /** The step of the current state. */
    method Step() returns (next: Option<HandshakeState>)
      modifies this
      ensures Leg(View(), next) == StepOf(env, old(View()))
    {
      match currentHandshakeState {
        case Preparing => next := Prepare();
        case Sending => next := Send();
        case Waiting => next := Wait();
        case Finished => next := Finish();
        case Errored => next := None;
      }
    }

    /** The handshake loop; entered only before completion, see `FinishedTerminatesIff`. */
    method Handshake() returns (ok: bool)
      requires !handshakeCompleted
      modifies this
      ensures Outcome(View(), ok) == HandshakeLoop(env, old(View()))
    {
      while true
        invariant !handshakeCompleted
        invariant HandshakeLoop(env, View()) == HandshakeLoop(env, old(View()))
        decreases Measure(View())
      {
        ghost var before := View();
        IterationDecreases(env, before);
        if currentHandshakeState == Finished && !handshakeCompleted {
          handshakeCompleted := true;
          return true;
        }
        var previous := currentHandshakeState;
        var next := Step();
        if next.None? {
          return false;
        }
        currentHandshakeState := next.value;
        if previous == currentHandshakeState && previous == Waiting {
          return true;
        }
        assert Iterate(env, before) == Again(View());
      }
    }

    /** What an expired timer makes of the connection; false if nothing is left to do. */
    method TimeOut() returns (again: bool)
      modifies this`currentRetransmitCount, this`currentRetransmitTimer, this`asked, this`entry,
               this`currentHandshakeState
      ensures again == TimedOut(env, old(View())).Some?
      ensures View() == if again then TimedOut(env, old(View())).value else old(View())
    {
      again := true;
      match currentHandshakeState {
        case Waiting =>
          if retransmit {
            currentRetransmitCount := currentRetransmitCount + 1;
            currentHandshakeState :=
              if currentRetransmitCount > config.maximumRetransmitNumber then Errored else Sending;
          } else {
            currentRetransmitTimer := Some(env.clock(asked) + config.retransmitInterval);
            asked := asked + 1;
            entry := ByRearm;
          }
        case Finished => currentHandshakeState := Sending;
        case _ => again := false;
      }
    }

    method HandshakeTimeout() returns (ok: bool)
      requires !handshakeCompleted
      modifies this
      ensures Outcome(View(), ok) == Dtls.HandshakeTimeout(env, old(View()))
    {
      ok := true;
      var again := TimeOut();
      if again {
        ok := Handshake();
      }
    }

    /** Reading a datagram or the queued packets, seen from the handshake machine. */
    method Accept(input: Incoming)
      modifies this`handshakeRx, this`outgoingPackets, this`raised
      ensures View() == Take(old(View()), input)
    {
      raised := raised + AlertPackets(View(), input.alerts);
      var i := 0;
      while i < |input.alerts|
        invariant 0 <= i <= |input.alerts|
        invariant outgoingPackets == old(outgoingPackets) + AlertPackets(old(View()), input.alerts)[..i]
        modifies this`outgoingPackets
      {
        outgoingPackets := outgoingPackets + [Packet(localEpoch, Alert(input.alerts[i]))];
        i := i + 1;
      }
      if input.handshake {
        handshakeRx := true;
      }
    }

    method TakeOutgoing() returns (packets: seq<Packet>)
      modifies this`outgoingPackets
      ensures packets == old(outgoingPackets)
      ensures View() == old(View()).(outgoing := [])
    {
      packets := [];
      while outgoingPackets != []
        invariant packets + outgoingPackets == old(outgoingPackets)
        decreases |outgoingPackets|
      {
        packets := packets + [outgoingPackets[0]];
        outgoingPackets := outgoingPackets[1..];
      }
    }
  }

  datatype Transmit = Transmit(remote: Addr, packet: Packet)

  function ToTransmits(remote: Addr, packets: seq<Packet>): (r: seq<Transmit>)
    ensures |r| == |packets|
    ensures forall i :: 0 <= i < |r| ==> r[i].remote == remote && r[i].packet == packets[i]
  {
    seq(|packets|, i requires 0 <= i < |packets| => Transmit(remote, packets[i]))
  }

  /** The packets of a queue that go to one remote. */
  function PacketsTo(transmits: seq<Transmit>, remote: Addr): seq<Packet> {
    if transmits == [] then []
    else
      var t := transmits[|transmits| - 1];
      PacketsTo(transmits[..|transmits| - 1], remote) + if t.remote == remote then [t.packet] else []
  }

  lemma ToTransmitsSnoc(transmits: seq<Transmit>, remote: Addr, packets: seq<Packet>)
    requires packets != []
    ensures var n := |packets| - 1;
      transmits + ToTransmits(remote, packets)
      == transmits + ToTransmits(remote, packets[..n]) + [Transmit(remote, packets[n])]
  {
  }

  lemma PacketsSnoc(before: seq<Packet>, packets: seq<Packet>)
    requires packets != []
    ensures before + packets[..|packets| - 1] + [packets[|packets| - 1]] == before + packets
  {
  }

  lemma {:induction false} PacketsToMore(transmits: seq<Transmit>, remote: Addr, packets: seq<Packet>, a: Addr)
    ensures PacketsTo(transmits + ToTransmits(remote, packets), a)
         == PacketsTo(transmits, a) + if a == remote then packets else []
    decreases |packets|
  {
    if packets == [] {
      assert transmits + ToTransmits(remote, packets) == transmits;
    } else {
      var n := |packets| - 1;
      PacketsToMore(transmits, remote, packets[..n], a);
      ToTransmitsSnoc(transmits, remote, packets);
      PacketsToSnoc(transmits + ToTransmits(remote, packets[..n]), Transmit(remote, packets[n]), a);
      PacketsSnoc(PacketsTo(transmits, a), packets);
    }
  }

  lemma PacketsToSnoc(transmits: seq<Transmit>, t: Transmit, a: Addr)
    ensures PacketsTo(transmits + [t], a) == PacketsTo(transmits, a) + if t.remote == a then [t.packet] else []
  {
    assert (transmits + [t])[..|transmits|] == transmits;
  }

  datatype Error = InvalidRemoteAddress | NoServerConfig | HandshakeFailed

  /** What a read leaves in the connection and returns: an error keeps the outgoing packets for later,
      and completion is reported by a read without error that completed the handshake. */
  predicate ReadDone(r: Option<Error>, handshakeComplete: bool, before: Conn, after: Outcome, now: Conn) {
    && now == (if after.ok then after.conn.(outgoing := []) else after.conn)
    && r == (if after.ok then None else Some(HandshakeFailed))
    && handshakeComplete == (after.ok && !before.completed && after.conn.completed)
  }

  function SentBy(remote: Addr, after: Outcome): seq<Transmit> {
    if after.ok then ToTransmits(remote, after.conn.outgoing) else []
  }

  class Endpoint {
    var connections: map<Addr, DTLSConn>
    var transmits: seq<Transmit>
    var serverConfig: Option<Config>
    // What the caller has taken from the transmit queue.
    ghost var polled: seq<Transmit>

    /** Everything ever put on the transmit queue for a remote. */
    ghost function SentTo(a: Addr): seq<Packet>
      reads this
    {
      PacketsTo(polled + transmits, a)
    }

    /** For every remote, what was put on the transmit queue and what its connection still holds are the
        writes of its flights and its alerts, each in order, none lost and none repeated. */
    ghost predicate Accounted()
      reads this, connections.Values
    {
      forall a :: AccountOf(a)
    }

    ghost predicate AccountOf(a: Addr)
      reads this, connections.Values
    {
      if a in connections then Wire.Balanced(connections[a].View(), SentTo(a)) else SentTo(a) == []
    }

    /** No account but one remote's changed. */
    twostate predicate OthersKept(remote: Addr)
      reads this, connections.Values
    {
      && (forall a :: a != remote ==> (a in connections <==> a in old(connections)) && SentTo(a) == old(SentTo(a)))
      && forall a :: a in connections && a != remote && a in old(connections) ==>
           connections[a] == old(connections)[a] && connections[a].View() == old(connections[a].View())
    }

    twostate lemma AccountsKept(remote: Addr)
      requires OthersKept(remote) && AccountOf(remote) && old(Accounted())
      ensures Accounted()
    {
      forall a | a != remote
        ensures AccountOf(a)
      {
        assert old(AccountOf(a));
      }
    }

    /** Distinct remotes have distinct connections, and every stored connection is between operations
        and keeps the properties of the machine. */
    ghost predicate Valid()
      reads this, connections.Values
    {
      && (forall a, b :: a in connections && b in connections && a != b ==> connections[a] != connections[b])
      && (forall a :: a in connections ==> Stable(connections[a]))
    }

    ghost predicate Stable(conn: DTLSConn)
      reads conn
    {
      Runs.Inv(conn.View()) && Runs.AtRest(conn.View())
    }

    constructor (serverConfig: Option<Config>)
      ensures Valid() && Accounted() && connections == map[] && transmits == []
    {
      this.serverConfig := serverConfig;
      connections, transmits, polled := map[], [], [];
    }

    /** The next packet to transmit. */
    method PollTransmit() returns (t: Option<Transmit>)
      requires Valid()
      modifies this`transmits, this`polled
      ensures Valid() && (old(Accounted()) ==> Accounted())
      ensures t.None? <==> old(transmits) == []
      ensures old(transmits) == (if t.Some? then [t.value] else []) + transmits
      ensures polled + transmits == old(polled + transmits)
    {
      t := None;
      if transmits != [] {
        t := Some(transmits[0]);
        polled := polled + [transmits[0]];
        transmits := transmits[1..];
        assert polled + transmits == old(polled + transmits);
        if old(Accounted()) {
          forall a
            ensures AccountOf(a)
          {
            assert old(AccountOf(a));
          }
        }
      }
    }

    /** Store a client's connection after its first handshake call, if that succeeds. */
    method Open(config: Config, env: Environment, saved: Option<Saved>)
      returns (conn: DTLSConn, ok: bool, ghost after: Outcome)
      ensures fresh(conn) && conn.env == env && conn.View() == after.conn && ok == after.ok
      ensures after == HandshakeLoop(env, Fresh(config, true, saved))
      ensures Stable(conn) && Wire.Balanced(conn.View(), [])
    {
      conn := new DTLSConn(config, env, true, saved);
      Runs.LoopKeeps(env, conn.View());
      Wire.LoopBalanced(env, conn.View(), []);
      after := HandshakeLoop(env, conn.View());
      ok := conn.Handshake();
    }

    /** Move a connection's outgoing packets to the transmit queue. */
    method TransmitAll(remote: Addr, conn: DTLSConn)
      requires Stable(conn)
      modifies this`transmits, conn`outgoingPackets
      ensures conn.View() == old(conn.View()).(outgoing := []) && Stable(conn)
      ensures transmits == old(transmits) + ToTransmits(remote, old(conn.View()).outgoing)
      ensures SentTo(remote) == old(SentTo(remote)) + old(conn.View()).outgoing
      ensures forall a :: a != remote ==> SentTo(a) == old(SentTo(a))
    {
      var packets := conn.TakeOutgoing();
      transmits := transmits + ToTransmits(remote, packets);
      assert polled + transmits == old(polled + transmits) + ToTransmits(remote, packets);
      PacketsToMore(old(polled + transmits), remote, packets, remote);
      forall a | a != remote
        ensures SentTo(a) == old(SentTo(a))
      {
        PacketsToMore(old(polled + transmits), remote, packets, a);
      }
    }

    /** The same for a stored connection: no account changes. */
    method Settle(remote: Addr, conn: DTLSConn)
      requires Valid() && remote in connections && connections[remote] == conn
      modifies this`transmits, conn`outgoingPackets
      ensures Valid() && (old(Accounted()) ==> Accounted())
      ensures conn.View() == old(conn.View()).(outgoing := [])
      ensures transmits == old(transmits) + ToTransmits(remote, old(conn.View()).outgoing)
      ensures forall a :: a in connections && a != remote ==> connections[a].View() == old(connections[a].View())
    {
      ghost var before, sent := conn.View(), SentTo(remote);
      TransmitAll(remote, conn);
      if old(Accounted()) {
        assert old(AccountOf(remote));
        Wire.TransmitBalanced(before, sent);
        AccountsKept(remote);
      }
    }

    /** Run the machine on a stored connection for a datagram: no account changes. */
    method DriveStored(remote: Addr, conn: DTLSConn, input: Incoming, queued: Incoming)
      returns (ok: bool, ghost after: Outcome)
      requires Valid() && remote in connections && connections[remote] == conn
      modifies conn
      ensures Valid() && (old(Accounted()) ==> Accounted())
      ensures after == Dtls.Read(conn.env, old(conn.View()), input, queued)
      ensures conn.View() == after.conn && ok == after.ok
      ensures forall a :: a in connections && a != remote ==> connections[a].View() == old(connections[a].View())
    {
      ok, after := Drive(conn, input, queued);
      if old(Accounted()) {
        assert old(AccountOf(remote));
        AccountsKept(remote);
      }
    }

    /** The same for the passage of time. */
    method ExpireStored(remote: Addr, conn: DTLSConn, now: nat) returns (fired: bool, ok: bool, ghost after: Outcome)
      requires Valid() && remote in connections && connections[remote] == conn
      modifies conn
      ensures Valid() && (old(Accounted()) ==> Accounted())
      ensures fired == TimerFires(old(conn.View()), now)
      ensures after == Timeout(conn.env, old(conn.View()), now)
      ensures conn.View() == after.conn && ok == after.ok
    {
      fired, ok, after := Expire(conn, now);
      if old(Accounted()) {
        assert old(AccountOf(remote));
        AccountsKept(remote);
      }
    }

    /** Insert a connection whose packets are accounted for. */
    method Store(remote: Addr, conn: DTLSConn)
      requires Valid() && remote !in connections && Stable(conn) && conn !in connections.Values
      modifies this`connections
      ensures Valid() && connections == old(connections)[remote := conn]
      ensures old(Accounted()) && Wire.Balanced(conn.View(), SentTo(remote)) ==> Accounted()
    {
      connections := connections[remote := conn];
      if old(Accounted()) && Wire.Balanced(conn.View(), SentTo(remote)) {
        AccountsKept(remote);
      }
    }

    /** Connect to a remote that is not known. */
    method ConnectNew(remote: Addr, config: Config, env: Environment, saved: Option<Saved>)
      returns (ok: bool, ghost after: Outcome)
      requires Valid() && remote !in connections
      modifies this`connections, this`transmits
      ensures Valid() && (old(Accounted()) ==> Accounted())
      ensures after == HandshakeLoop(env, Fresh(config, true, saved)) && ok == after.ok
      ensures if ok then
                && remote in connections && fresh(connections[remote]) && connections[remote].env == env
                && connections == old(connections)[remote := connections[remote]]
                && connections[remote].View() == after.conn.(outgoing := [])
                && transmits == old(transmits) + ToTransmits(remote, after.conn.outgoing)
              else connections == old(connections) && transmits == old(transmits)
    {
      var conn;
      conn, ok, after := Open(config, env, saved);
      if ok {
        Launch(remote, conn);
      }
    }

    /** Store a new connection and transmit its packets. */
    method Launch(remote: Addr, conn: DTLSConn)
      requires Valid() && remote !in connections && conn !in connections.Values
      requires Stable(conn) && Wire.Balanced(conn.View(), [])
      modifies this`connections, this`transmits, conn`outgoingPackets
      ensures Valid() && (old(Accounted()) ==> Accounted())
      ensures connections == old(connections)[remote := conn]
      ensures conn.View() == old(conn.View()).(outgoing := [])
      ensures transmits == old(transmits) + ToTransmits(remote, old(conn.View()).outgoing)
    {
      if Accounted() {
        assert AccountOf(remote);
      }
      Store(remote, conn);
      Settle(remote, conn);
    }

    method Connect(remote: Addr, config: Config, env: Environment, saved: Option<Saved>, validPort: bool)
      returns (r: Option<Error>, ghost after: Outcome)
      requires Valid()
      modifies this`connections, this`transmits
      ensures Valid() && (old(Accounted()) ==> Accounted())
      ensures after == HandshakeLoop(env, Fresh(config, true, saved))
      ensures r == if !validPort then Some(InvalidRemoteAddress)
                   else if remote in old(connections) || after.ok then None
                   else Some(HandshakeFailed)
      ensures if validPort && remote !in old(connections) && after.ok then
                && remote in connections && fresh(connections[remote]) && connections[remote].env == env
                && connections == old(connections)[remote := connections[remote]]
                && connections[remote].View() == after.conn.(outgoing := [])
                && transmits == old(transmits) + ToTransmits(remote, after.conn.outgoing)
              else connections == old(connections) && transmits == old(transmits)
    {
      after := HandshakeLoop(env, Fresh(config, true, saved));
      if !validPort {
        r := Some(InvalidRemoteAddress);
      } else {
        r := None;
        if remote !in connections {
          var ok, _ := ConnectNew(remote, config, env, saved);
          if !ok {
            r := Some(HandshakeFailed);
          }
        }
      }
    }

    /** Run the machine on one connection for a datagram. */
    method Drive(conn: DTLSConn, input: Incoming, queued: Incoming) returns (ok: bool, ghost after: Outcome)
      requires Stable(conn)
      modifies conn
      ensures after == Dtls.Read(conn.env, old(conn.View()), input, queued)
      ensures conn.View() == after.conn && ok == after.ok && Stable(conn)
      ensures forall sent :: Wire.Balanced(old(conn.View()), sent) ==> Wire.Balanced(conn.View(), sent)
    {
      forall sent | Wire.Balanced(conn.View(), sent)
        ensures Wire.Balanced(Dtls.Read(conn.env, conn.View(), input, queued).conn, sent)
      {
        Wire.ReadBalanced(conn.env, conn.View(), input, queued, sent);
      }
      after := Dtls.Read(conn.env, conn.View(), input, queued);
      Runs.ReadKeeps(conn.env, conn.View(), input, queued);
      ok := Advance(conn, input, queued);
    }

    method Advance(conn: DTLSConn, input: Incoming, queued: Incoming) returns (ok: bool)
      modifies conn
      ensures Outcome(conn.View(), ok) == Dtls.Read(conn.env, old(conn.View()), input, queued)
    {
      conn.Accept(input);
      if !input.ok {
        return false;
      }
      if !conn.handshakeCompleted {
        ok := conn.Handshake();
        if !ok {
          return false;
        }
        conn.Accept(queued);
        if !queued.ok {
          return false;
        }
        if queued.handshake && !conn.handshakeCompleted {
          ok := conn.Handshake();
          return ok;
        }
      }
      ok := true;
    }

    /** The part of `read` that runs on a stored connection. */
    method ReadStored(remote: Addr, input: Incoming, queued: Incoming)
      returns (r: Option<Error>, handshakeComplete: bool, ghost after: Outcome)
      requires Valid() && remote in connections
      modifies this`transmits, connections[remote]
      ensures Valid() && (old(Accounted()) ==> Accounted())
      ensures forall a :: a in connections && a != remote ==> connections[a].View() == old(connections[a].View())
      ensures after == Dtls.Read(connections[remote].env, old(connections[remote].View()), input, queued)
      ensures ReadDone(r, handshakeComplete, old(connections[remote].View()), after, connections[remote].View())
      ensures transmits == old(transmits) + SentBy(remote, after)
    {
      handshakeComplete := false;
      r := Some(HandshakeFailed);
      var conn := connections[remote];
      var before := conn.handshakeCompleted;
      var ok;
      ok, after := DriveStored(remote, conn, input, queued);
      if ok {
        handshakeComplete := !before && conn.handshakeCompleted;
        Settle(remote, conn);
        r := None;
      }
    }

    /** A datagram from an unknown remote: a server creates the connection and reads on it. */
    method ReadNew(remote: Addr, config: Config, env: Environment, input: Incoming, queued: Incoming)
      returns (r: Option<Error>, handshakeComplete: bool, ghost after: Outcome)
      requires Valid() && remote !in connections
      modifies this`connections, this`transmits
      ensures Valid() && (old(Accounted()) ==> Accounted())
      ensures remote in connections && fresh(connections[remote]) && connections[remote].env == env
      ensures connections == old(connections)[remote := connections[remote]]
      ensures after == Dtls.Read(env, Fresh(config, false, None), input, queued)
      ensures ReadDone(r, handshakeComplete, Fresh(config, false, None), after, connections[remote].View())
      ensures transmits == old(transmits) + SentBy(remote, after)
    {
      var conn := new DTLSConn(config, env, false, None);
      if Accounted() {
        assert AccountOf(remote);
      }
      Store(remote, conn);
      r, handshakeComplete, after := ReadStored(remote, input, queued);
    }

    /** What the machine starts from: the stored connection, or the one a server creates. */
    ghost function Before(remote: Addr): Conn
      requires remote in connections || serverConfig.Some?
      reads this, connections.Values
    {
      if remote in connections then connections[remote].View() else Fresh(serverConfig.value, false, None)
    }

    /** `env` is the environment of a connection that has to be created. */
    method Read(remote: Addr, env: Environment, input: Incoming, queued: Incoming)
      returns (r: Option<Error>, handshakeComplete: bool, ghost after: Outcome)
      requires Valid()
      modifies this`connections, this`transmits, connections.Values
      ensures Valid() && (old(Accounted()) ==> Accounted())
      ensures forall a :: a in old(connections) && a != remote ==>
                old(connections)[a].View() == old(connections[a].View())
      ensures remote !in old(connections) && serverConfig.None? ==>
                r == Some(NoServerConfig) && connections == old(connections) && transmits == old(transmits)
      ensures remote in old(connections) ==> connections == old(connections)
      ensures remote in old(connections) || serverConfig.Some? ==>
                && remote in connections && connections == old(connections)[remote := connections[remote]]
                && after == Dtls.Read(connections[remote].env, old(Before(remote)), input, queued)
                && ReadDone(r, handshakeComplete, old(Before(remote)), after, connections[remote].View())
                && transmits == old(transmits) + SentBy(remote, after)
    {
      if remote in connections {
        r, handshakeComplete, after := ReadStored(remote, input, queued);
      } else if serverConfig.Some? {
        r, handshakeComplete, after := ReadNew(remote, serverConfig.value, env, input, queued);
      } else {
        r, handshakeComplete, after := Some(NoServerConfig), false, Outcome(Fresh(Config(0, 0, 0), false, None), false);
      }
    }

    /** Run the machine on one connection for the passage of time. */
    method Expire(conn: DTLSConn, now: nat) returns (fired: bool, ok: bool, ghost after: Outcome)
      requires Stable(conn)
      modifies conn
      ensures fired == TimerFires(old(conn.View()), now)
      ensures after == Timeout(conn.env, old(conn.View()), now)
      ensures conn.View() == after.conn && ok == after.ok && Stable(conn)
      ensures forall sent :: Wire.Balanced(old(conn.View()), sent) ==> Wire.Balanced(conn.View(), sent)
    {
      forall sent | Wire.Balanced(conn.View(), sent)
        ensures Wire.Balanced(Timeout(conn.env, conn.View(), now).conn, sent)
      {
        Wire.TimeoutBalanced(conn.env, conn.View(), now, sent);
      }
      after := Timeout(conn.env, conn.View(), now);
      Runs.TimeoutKeeps(conn.env, conn.View(), now);
      ok := true;
      fired := conn.currentRetransmitTimer.Some? && now >= conn.currentRetransmitTimer.value;
      if fired {
        conn.currentRetransmitTimer := None;
        if !conn.handshakeCompleted {
          ok := conn.HandshakeTimeout();
        }
      }
    }

    method HandleTimeout(remote: Addr, now: nat) returns (r: Option<Error>)
      requires Valid()
      modifies this`transmits, if remote in connections then {connections[remote]} else {}
      ensures Valid() && (old(Accounted()) ==> Accounted())
      ensures remote !in connections ==> r == Some(InvalidRemoteAddress) && transmits == old(transmits)
      ensures remote in connections ==>
                var conn := connections[remote];
                var fires := TimerFires(old(conn.View()), now);
                var after := Timeout(conn.env, old(conn.View()), now);
                && r == (if after.ok then None else Some(HandshakeFailed))
                && conn.View() == (if fires && after.ok then after.conn.(outgoing := []) else after.conn)
                && transmits == old(transmits) + (if fires then SentBy(remote, after) else [])
    {
      if remote !in connections {
        return Some(InvalidRemoteAddress);
      }
      var conn := connections[remote];
      var fired, ok, _ := ExpireStored(remote, conn, now);
      if !ok {
        return Some(HandshakeFailed);
      }
      if fired {
        Settle(remote, conn);
      }
      r := None;
    }

    /** The earlier of the given instant and the connection's retransmit timer; a returned instant
        before the given one is a timer that would fire then. */
    method PollTimeout(remote: Addr, eto: nat) returns (r: Option<nat>)
      requires Valid()
      ensures r.None? <==> remote !in connections
      ensures r.Some? ==>
                var c := connections[remote].View();
                && r.value <= eto && (c.timer.Some? ==> r.value <= c.timer.value)
                && (r.value < eto ==> TimerFires(c, r.value) && c.state == Waiting)
    {
      if remote !in connections {
        return None;
      }
      var timer := connections[remote].currentRetransmitTimer;
      r := if timer.Some? && timer.value < eto then timer else Some(eto);
    }
  }
}
