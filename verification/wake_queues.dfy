/** What enters and leaves the two queues of the wake protocol, told from the actions of a run alone. */
module WakeQueues {
  import opened Seqs
  import opened WakeProtocol

  // ------------------------------------------------------------------ the core

  /** The output an action hands to the core. */
  function Produced(s: State, a: Action): seq<Message> {
    match a
    case Enqueue(_, tags) => Tagged(Woken, tags)
    case EnqueueAwait(_, tags) => Tagged(Woken, tags)
    case Produce(tags) => Tagged(Unwoken, tags)
    case CloseCore(_, tags) => Tagged(Farewell, tags)
    case Poll(tags, _) => Tagged(Unwoken, tags)
    case TimerOrSocket(tags) => Tagged(Unwoken, tags)
    case Handle(tags) => if s.driver == Handling(Close) then [] else Tagged(Unwoken, tags)
    case _ => []
  }

  function ProducedBy(s: State, run: seq<Action>): seq<Message>
    requires ValidRun(s, run)
    decreases |run|
  {
    if run == [] then [] else Produced(s, run[0]) + ProducedBy(Apply(s, run[0]), run[1..])
  }

  lemma CoreStep(s: State, a: Action)
    requires Enabled(s, a) && s.past.accepted == s.past.flushed + s.core
    ensures Apply(s, a).past.accepted == s.past.accepted + Produced(s, a)
    ensures Apply(s, a).past.accepted == Apply(s, a).past.flushed + Apply(s, a).core
  {
    ConservationKept(s, a);
    assert s.past.accepted + [] == s.past.accepted;
  }

  lemma {:induction false} CoreRun(s: State, run: seq<Action>)
    requires ValidRun(s, run) && s.past.accepted == s.past.flushed + s.core
    ensures Exec(s, run).past.flushed + Exec(s, run).core == s.past.flushed + s.core + ProducedBy(s, run)
    decreases |run|
  {
    if run == [] {
      assert s.past.flushed + s.core + [] == s.past.flushed + s.core;
    } else {
      CoreStep(s, run[0]);
      CoreRun(Apply(s, run[0]), run[1..]);
      Regroup(s.past.accepted, Produced(s, run[0]), ProducedBy(Apply(s, run[0]), run[1..]));
    }
  }

  /** What reached the sockets, then what the core holds, is everything produced, in order. */
  lemma EverythingProducedIsFlushedOrHeld(dedicated: bool, run: seq<Action>)
    requires ValidRun(Init(dedicated), run)
    ensures var s := Exec(Init(dedicated), run); s.past.flushed + s.core == ProducedBy(Init(dedicated), run)
  {
    CoreRun(Init(dedicated), run);
    assert [] + [] + ProducedBy(Init(dedicated), run) == ProducedBy(Init(dedicated), run);
  }

  // --------------------------------------------------------------- the channel

  /** The event an action puts on the driver channel; a full channel or a driver gone drops it. */
  function Posted(s: State, a: Action): seq<Event> {
    if !(Live(s) && HasRoom(s)) then []
    else
      match a
      case Poke(_) => [WriteNotify]
      case AwaitSend(id) => if CallerOf(s, id).Blocking? then [CallerOf(s, id).evt] else []
      case WakeToClose(_) => [Close]
      case _ => []
  }

  /** The event the driver starts to handle. */
  function Taken(s: State, a: Action): seq<Event>
    requires Enabled(s, a)
  {
    if a.Receive? && Apply(s, a).driver.Handling? then [Apply(s, a).driver.evt] else []
  }

  function PostedBy(s: State, run: seq<Action>): seq<Event>
    requires ValidRun(s, run)
    decreases |run|
  {
    if run == [] then [] else Posted(s, run[0]) + PostedBy(Apply(s, run[0]), run[1..])
  }

  function TakenBy(s: State, run: seq<Action>): seq<Event>
    requires ValidRun(s, run)
    decreases |run|
  {
    if run == [] then [] else Taken(s, run[0]) + TakenBy(Apply(s, run[0]), run[1..])
  }

  lemma ChannelStep(s: State, a: Action)
    requires Enabled(s, a)
    ensures s.chan + Posted(s, a) == Taken(s, a) + Apply(s, a).chan
  {
    if a.Receive? {
      assert s.chan == [s.chan[0]] + s.chan[1..];
    }
  }

  /** Two conservation steps in a row are one. */
  lemma Chained(q0: seq<Event>, in0: seq<Event>, out0: seq<Event>, q1: seq<Event>,
                in1: seq<Event>, out1: seq<Event>, q2: seq<Event>)
    requires q0 + in0 == out0 + q1 && q1 + in1 == out1 + q2
    ensures q0 + (in0 + in1) == (out0 + out1) + q2
  {
    Regroup(q0, in0, in1);
    Regroup(out0, q1, in1);
    Regroup(out0, out1, q2);
  }

  /** The channel loses, repeats and reorders nothing: events handled, then events waiting, are events posted. */
  lemma {:induction false} EventsHandledInOrder(s: State, run: seq<Action>)
    requires ValidRun(s, run)
    ensures s.chan + PostedBy(s, run) == TakenBy(s, run) + Exec(s, run).chan
    decreases |run|
  {
    if run != [] {
      var t, rest := Apply(s, run[0]), run[1..];
      ChannelStep(s, run[0]);
      EventsHandledInOrder(t, rest);
      Chained(s.chan, Posted(s, run[0]), Taken(s, run[0]), t.chan,
              PostedBy(t, rest), TakenBy(t, rest), Exec(t, rest).chan);
    }
  }
}
