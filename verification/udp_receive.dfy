/** Receive-future and buffer bookkeeping of the driver loop, over sockets with queues of
    datagrams that the network fills in any order. */
module UdpReceive {

  const MAX_UDP_RECV_BURST: nat := 64

  type Addr = nat

  datatype Datagram = Datagram(peer: Addr, payload: seq<nat>)

  /** An outstanding receive: the socket it reads and the buffer it owns. */
  datatype Future = Future(idx: nat, buf: nat)

  /** A datagram handed to `handle_read`, with the socket it came from. */
  datatype Fed = Fed(idx: nat, datagram: Datagram)

  function From(fed: seq<Fed>, idx: nat): seq<Datagram> {
    if fed == [] then []
    else From(fed[..|fed| - 1], idx) + (if fed[|fed| - 1].idx == idx then [fed[|fed| - 1].datagram] else [])
  }

  lemma FromAppend(fed: seq<Fed>, f: Fed, idx: nat)
    ensures From(fed + [f], idx) == From(fed, idx) + (if f.idx == idx then [f.datagram] else [])
  {
    assert (fed + [f])[..|fed|] == fed;
  }

  function Min(a: nat, b: nat): nat {
    if a < b then a else b
  }

  class UdpReceiver {
    const sockets: seq<Addr>
    const bound: set<Addr>
    var futures: seq<Future>
    var activeSocketCount: int
    var udpSockets: set<Addr>
    var fed: seq<Fed>
    // The sockets' receive queues, everything that ever arrived, and the sockets that failed.
    var queues: seq<seq<Datagram>>
    ghost var arrived: seq<seq<Datagram>>
    ghost var failed: set<nat>

    ghost function FailedAddrs(): set<Addr>
      reads this
    {
      set idx | idx in failed && idx < |sockets| :: sockets[idx]
    }

    /** What has arrived on each socket is what was fed from it, in order, then what is queued. */
    ghost predicate Conserved()
      reads this
    {
      && |queues| == |arrived| == |sockets|
      && forall idx :: 0 <= idx < |sockets| ==> arrived[idx] == From(fed, idx) + queues[idx]
    }

    ghost predicate Valid()
      reads this
    {
      && activeSocketCount == |futures|
      && FuturesMatchSockets(futures, |sockets|, failed)
      && udpSockets == bound - FailedAddrs()
      && Conserved()
    }

    /** One buffer per socket is taken into one future per socket; mDNS sockets come last. */
    constructor (udp: seq<Addr>, mdns: seq<Addr>)
      ensures Valid() && fresh(this)
      ensures sockets == udp + mdns && bound == set a | a in udp
      ensures activeSocketCount == |sockets| && udpSockets == bound
      ensures failed == {} && fed == [] && arrived == queues == seq(|sockets|, _ => [])
    {
      sockets := udp + mdns;
      bound := set a | a in udp;
      udpSockets := set a | a in udp;
      fed, failed := [], {};
      queues := seq(|udp + mdns|, _ => []);
      arrived := seq(|udp + mdns|, _ => []);
      futures := [];
      activeSocketCount := |udp + mdns|;
      new;
      var idx := 0;
      while idx < |sockets|
        invariant 0 <= idx <= |sockets|
        invariant |futures| == idx && forall i :: 0 <= i < idx ==> futures[i] == Future(i, i)
        modifies this`futures
      {
        futures := futures + [Future(idx, idx)];
        idx := idx + 1;
      }
      forall i | 0 <= i < |sockets|
        ensures ReadBy(futures, i)
      {
        assert futures[i].idx == i;
      }
      assert FailedAddrs() == {};
    }

    /** The network delivers a datagram to a socket. */
    method Arrive(idx: nat, d: Datagram)
      requires Valid() && idx < |sockets|
      modifies this
      ensures Valid() && futures == old(futures) && failed == old(failed) && fed == old(fed)
      ensures activeSocketCount == old(activeSocketCount) && udpSockets == old(udpSockets)
      ensures arrived == old(arrived)[idx := old(arrived)[idx] + [d]]
    {
      queues := queues[idx := queues[idx] + [d]];
      arrived := arrived[idx := arrived[idx] + [d]];
      assert FailedAddrs() == old(FailedAddrs());
    }

    /** Hand the first queued datagram of a socket to `handle_read`. */
    method Feed(idx: nat)
      requires Conserved() && idx < |sockets| && queues[idx] != []
      modifies this`queues, this`fed
      ensures Conserved()
      ensures fed == old(fed) + [Fed(idx, old(queues)[idx][0])]
      ensures queues == old(queues)[idx := old(queues)[idx][1..]]
    {
      var f := Fed(idx, queues[idx][0]);
      forall i | 0 <= i < |sockets|
        ensures arrived[i] == From(fed + [f], i) + queues[idx := queues[idx][1..]][i]
      {
        FromAppend(fed, f, i);
      }
      fed := fed + [f];
      queues := queues[idx := queues[idx][1..]];
    }

    /** Up to 64 further datagrams, until the socket would block or fails (`ready` polls succeed). */
    method Burst(idx: nat, ready: nat)
      requires Conserved() && idx < |sockets|
      modifies this`queues, this`fed
      ensures Conserved()
      ensures var n := Min(MAX_UDP_RECV_BURST, Min(ready, |old(queues)[idx]|));
              && queues == old(queues)[idx := old(queues)[idx][n..]]
              && |fed| == |old(fed)| + n && old(fed) <= fed
              && forall i :: 0 <= i < n ==> fed[|old(fed)| + i] == Fed(idx, old(queues)[idx][i])
    {
      var burst := 0;
      while burst < MAX_UDP_RECV_BURST
        invariant 0 <= burst <= Min(MAX_UDP_RECV_BURST, Min(ready, |old(queues)[idx]|))
        invariant Conserved()
        invariant queues == old(queues)[idx := old(queues)[idx][burst..]]
        invariant |fed| == |old(fed)| + burst && old(fed) <= fed
        invariant forall i :: 0 <= i < burst ==> fed[|old(fed)| + i] == Fed(idx, old(queues)[idx][i])
      {
        if burst == ready || queues[idx] == [] {
          break;
        }
        Feed(idx);
        burst := burst + 1;
      }
    }

    /** A future completed with a datagram: feed it, re-arm the future with its buffer, then burst. */
    method OnPacket(k: nat, ready: nat)
      requires Valid() && k < |futures| && queues[futures[k].idx] != []
      modifies this
      ensures Valid() && arrived == old(arrived) && failed == old(failed)
      ensures activeSocketCount == old(activeSocketCount) && udpSockets == old(udpSockets)
      ensures var idx := old(futures)[k].idx;
              var n := 1 + Min(MAX_UDP_RECV_BURST, Min(ready, |old(queues)[idx]| - 1));
              && queues == old(queues)[idx := old(queues)[idx][n..]]
              && old(fed) <= fed && |fed| == |old(fed)| + n
              && forall i :: 0 <= i < n ==> fed[|old(fed)| + i] == Fed(idx, old(queues)[idx][i])
    {
      var f := futures[k];
      Feed(f.idx);
      futures := futures[..k] + futures[k + 1..] + [f];
      Rearmed(old(futures), k, |sockets|, failed);
      ghost var before := fed;
      Burst(f.idx, ready);
      assert old(fed) <= before <= fed;
      assert FailedAddrs() == old(FailedAddrs());
    }

    /** A transient error: only re-arm the future with its buffer. */
    method OnRetryableError(k: nat)
      requires Valid() && k < |futures|
      modifies this`futures
      ensures Valid()
      ensures multiset(futures) == multiset(old(futures))
    {
      var f := futures[k];
      Rearmed(futures, k, |sockets|, failed);
      assert futures == futures[..k] + [f] + futures[k + 1..];
      futures := futures[..k] + futures[k + 1..] + [f];
    }

    /** A fatal error: the socket is forgotten. Returns whether the loop exits with the error. */
    method OnFatalError(k: nat, tcpEmpty: bool) returns (exit: bool)
      requires Valid() && k < |futures|
      modifies this`futures, this`udpSockets, this`activeSocketCount, this`failed
      ensures Valid()
      ensures failed == old(failed) + {old(futures)[k].idx} && old(futures)[k].idx !in old(failed)
      ensures activeSocketCount == old(activeSocketCount) - 1
      ensures exit <==> tcpEmpty && forall i :: 0 <= i < |sockets| ==> i in failed
    {
      var f := futures[k];
      Dropped(futures, k, |sockets|, failed);
      futures := futures[..k] + futures[k + 1..];
      udpSockets := udpSockets - {sockets[f.idx]};
      activeSocketCount := activeSocketCount - 1;
      failed := failed + {f.idx};
      assert FailedAddrs() == old(FailedAddrs()) + {sockets[f.idx]};
      assert futures != [] ==> futures[0].idx !in failed;
      exit := activeSocketCount == 0 && tcpEmpty;
    }
  }

  /** Some outstanding future reads socket `idx`. */
  predicate ReadBy(futures: seq<Future>, idx: nat) {
    exists i :: 0 <= i < |futures| && futures[i].idx == idx
  }

  /** Every non-failed socket, and no other, is read by exactly one future, which owns its buffer. */
  ghost predicate FuturesMatchSockets(futures: seq<Future>, n: nat, failed: set<nat>) {
    && (forall i :: 0 <= i < |futures| ==>
          futures[i].idx < n && futures[i].idx !in failed && futures[i].buf == futures[i].idx)
    && (forall i, j :: 0 <= i < j < |futures| ==> futures[i].idx != futures[j].idx)
    && (forall idx :: 0 <= idx < n && idx !in failed ==> ReadBy(futures, idx))
    && (forall idx :: idx in failed ==> idx < n)
  }

  lemma OthersStay(before: seq<Future>, k: nat, idx: nat)
    requires k < |before| && ReadBy(before, idx) && idx != before[k].idx
    ensures ReadBy(before[..k] + before[k + 1..], idx)
  {
    var i :| 0 <= i < |before| && before[i].idx == idx;
    assert (before[..k] + before[k + 1..])[if i < k then i else i - 1] == before[i];
  }

  lemma Dropped(before: seq<Future>, k: nat, n: nat, failed: set<nat>)
    requires k < |before| && FuturesMatchSockets(before, n, failed)
    ensures FuturesMatchSockets(before[..k] + before[k + 1..], n, failed + {before[k].idx})
  {
    forall idx | 0 <= idx < n && idx !in failed + {before[k].idx}
      ensures ReadBy(before[..k] + before[k + 1..], idx)
    {
      OthersStay(before, k, idx);
    }
  }

  lemma Rearmed(before: seq<Future>, k: nat, n: nat, failed: set<nat>)
    requires k < |before| && FuturesMatchSockets(before, n, failed)
    ensures FuturesMatchSockets(before[..k] + before[k + 1..] + [before[k]], n, failed)
  {
    var rest := before[..k] + before[k + 1..];
    Dropped(before, k, n, failed);
    forall idx | 0 <= idx < n && idx !in failed
      ensures ReadBy(rest + [before[k]], idx)
    {
      if idx == before[k].idx {
        assert (rest + [before[k]])[|rest|].idx == idx;
      } else {
        var i :| 0 <= i < |rest| && rest[i].idx == idx;
        assert (rest + [before[k]])[i].idx == idx;
      }
    }
  }

  /** Hence the outstanding futures and the failed sockets together count the sockets. */
  lemma {:induction false} FuturesAndFailuresCountSockets(futures: seq<Future>, n: nat, failed: set<nat>)
    requires FuturesMatchSockets(futures, n, failed)
    ensures |futures| + |failed| == n
    decreases |futures|
  {
    if futures == [] {
      CountBelow(failed, n);
    } else {
      var k := |futures| - 1;
      assert futures[..k] + futures[k + 1..] == futures[..k];
      Dropped(futures, k, n, failed);
      FuturesAndFailuresCountSockets(futures[..k], n, failed + {futures[k].idx});
    }
  }

  lemma {:induction false} CountBelow(all: set<nat>, n: nat)
    requires forall i :: i in all <==> 0 <= i < n
    ensures |all| == n
  {
    if n > 0 {
      CountBelow(all - {n - 1}, n - 1);
    }
  }
}
