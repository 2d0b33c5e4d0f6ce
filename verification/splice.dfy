/** Splicing several incoming RTP tracks into one outgoing stream while a timer swaps the active one. */
module Splice {
  import opened Options
  import opened Modular

  const TS_MOD: nat := 0x1_0000_0000
  const SEQ_MOD: nat := 0x1_0000

  // ------------------------------------------------------ the shared output state

  type U32 = x: nat | x < TS_MOD
  type U16 = x: nat | x < SEQ_MOD

  datatype Output = Output(timestamp: nat, sequence: nat)

  function Stamp(o: Output, delta: nat): Output {
    Output((o.timestamp + delta) % TS_MOD, (o.sequence + 1) % SEQ_MOD)
  }

  // ----------------------------------------------------------- tasks and the timer

  /** Where a track's task is; `delta` is the timestamp step of the packet in hand. */
  datatype Phase =
    | Polling
    | Measured(delta: nat)               // last_ts updated, active index not yet read
    | Chosen(delta: nat)                 // read as active, about to stamp
    | Writing(entry: nat)                // stamped as this entry of the log, about to be written out
    | Ended

  /** `received` is the history of the timestamps of every packet, stamped or not. */
  datatype Task = Task(trackNum: nat, lastTs: Option<nat>, isCurrent: bool, phase: Phase, received: seq<nat>)

  datatype Timer = Sleeping | HasCount(count: nat) | HasIndex(count: nat, index: nat)

  /** A stamped packet: which task's, how many packets that task had received with it, and what it was stamped with. */
  datatype Stamped = Stamped(task: nat, place: nat, delta: nat, timestamp: nat, sequence: nat)

  datatype State = State(
    current: nat, trackCount: nat, out: Output,
    tasks: map<nat, Task>, timer: Timer,
    // History: the packets stamped, and which of them were written out, in the order they were.
    log: seq<Stamped>, written: seq<nat>)

  datatype Action =
    | Spawn(task: nat) | Open(task: nat, receiver: nat) | Packet(task: nat, timestamp: nat)
    | ReadIndex(task: nat) | StampPacket(task: nat) | Write(task: nat, ok: bool) | End(task: nat)
    | LoadCount | LoadIndex | StoreIndex

  const INIT: State := State(0, 0, Output(0, 0), map[], Sleeping, [], [])

  function WrappingSub(a: nat, b: nat): nat {
    (a - b) % TS_MOD
  }

  predicate Enabled(s: State, a: Action) {
    match a
    case Spawn(id) => id !in s.tasks
    case Open(id, receiver) => id in s.tasks && s.tasks[id].phase.Polling?
    case Packet(id, ts) => id in s.tasks && s.tasks[id].phase.Polling? && ts < TS_MOD
    case ReadIndex(id) => id in s.tasks && s.tasks[id].phase.Measured?
    case StampPacket(id) => id in s.tasks && s.tasks[id].phase.Chosen?
    case Write(id, ok) => id in s.tasks && s.tasks[id].phase.Writing?
    case End(id) => id in s.tasks && s.tasks[id].phase.Polling?
    case LoadCount => s.timer.Sleeping?
    case LoadIndex => s.timer.HasCount?
    case StoreIndex => s.timer.HasIndex? && s.timer.count > 0
  }

  function With(s: State, id: nat, t: Task): State {
    s.(tasks := s.tasks[id := t])
  }

  function Apply(s: State, a: Action): State
    requires Enabled(s, a)
  {
    match a
    case Spawn(id) => With(s, id, Task(0, None, false, Polling, []))
    case Open(id, receiver) =>
      With(s, id, s.tasks[id].(trackNum := receiver))
        .(trackCount := if receiver + 1 > s.trackCount then receiver + 1 else s.trackCount)
    case Packet(id, ts) =>
      var t := s.tasks[id];
      var delta := if t.lastTs.Some? then WrappingSub(ts, t.lastTs.value) else 0;
      With(s, id, t.(lastTs := Some(ts), phase := Measured(delta), received := t.received + [ts]))
    case ReadIndex(id) =>
      var t := s.tasks[id];
      if s.current != t.trackNum then With(s, id, t.(isCurrent := false, phase := Polling))
      else With(s, id, t.(isCurrent := true, phase := Chosen(t.phase.delta)))
    case StampPacket(id) =>
      var t := s.tasks[id];
      var out := Stamp(s.out, t.phase.delta);
      With(s, id, t.(phase := Writing(|s.log|)))
        .(out := out, log := s.log + [Stamped(id, |t.received|, t.phase.delta, out.timestamp, out.sequence)])
    case Write(id, ok) =>
      With(s, id, s.tasks[id].(phase := if ok then Polling else Ended))
        .(written := if ok then s.written + [s.tasks[id].phase.entry] else s.written)
    case End(id) => With(s, id, s.tasks[id].(phase := Ended))
    case LoadCount => if s.trackCount == 0 then s else s.(timer := HasCount(s.trackCount))
    case LoadIndex => s.(timer := HasIndex(s.timer.count, s.current))
    case StoreIndex => s.(current := (s.timer.index + 1) % s.timer.count, timer := Sleeping)
  }

  predicate ValidRun(s: State, run: seq<Action>)
    decreases |run|
  {
    run == [] || (Enabled(s, run[0]) && ValidRun(Apply(s, run[0]), run[1..]))
  }

  function Exec(s: State, run: seq<Action>): State
    requires ValidRun(s, run)
    decreases |run|
  {
    if run == [] then s else Exec(Apply(s, run[0]), run[1..])
  }

  // ------------------------------------------------------- the shared and task objects

  predicate Reaches(s: State, run: seq<Action>, t: State) {
    ValidRun(s, run) && Exec(s, run) == t
  }

  lemma {:induction false} ReachesThrough(s: State, a: seq<Action>, t: State, b: seq<Action>, u: State)
    requires Reaches(s, a, t) && Reaches(t, b, u)
    ensures Reaches(s, a + b, u)
    decreases |a|
  {
    if a == [] {
      assert a + b == b;
    } else {
      ReachesThrough(Apply(s, a[0]), a[1..], t, b, u);
      assert (a + b)[1..] == a[1..] + b;
    }
  }

  lemma ReachesStep(s: State, run: seq<Action>, t: State, a: Action)
    requires Reaches(s, run, t) && Enabled(t, a)
    ensures Reaches(s, run + [a], Apply(t, a))
  {
    assert [a][1..] == [];
    assert Reaches(Apply(t, a), [], Apply(t, a));
    ReachesThrough(s, run, t, [a], Apply(t, a));
  }

  lemma Continue(s: State, run: seq<Action>, t: State, a: Action) returns (run': seq<Action>, t': State)
    requires Reaches(s, run, t) && Enabled(t, a)
    ensures Reaches(s, run', t') && t' == Apply(t, a)
  {
    ReachesStep(s, run, t, a);
    run', t' := run + [a], Apply(t, a);
  }

  lemma MovesBy(ts: U32, delta: U32)
    ensures WrappingSub((ts + delta) % TS_MOD, ts) == delta
  {
    SubOfSum(ts, delta);
    ModUnique(ts, 0, ts, TS_MOD);
  }

  /** The output state as the tasks share it under its lock. */
  class OutputState {
    var timestamp: U32
    var sequence: U16

    ghost function View(): Output
      reads this
    {
      Output(timestamp, sequence)
    }

    constructor ()
      ensures View() == Output(0, 0)
    {
      timestamp, sequence := 0, 0;
    }

    /** Under the lock the timestamp moves by the step and the sequence number by one. */
    method StampNext(delta: U32) returns (ts: U32, seqNum: U16)
      modifies this
      ensures WrappingSub(timestamp, old(timestamp)) == delta && (sequence - old(sequence)) % SEQ_MOD == 1
      ensures View() == Stamp(old(View()), delta) == Output(ts, seqNum)
    {
      timestamp := (timestamp + delta) % TS_MOD;
      sequence := (sequence + 1) % SEQ_MOD;
      ts, seqNum := timestamp, sequence;
      MovesBy(old(timestamp), delta);
    }
  }

  /** A track's task, with what it keeps between packets. */
  class TrackTask {
    var trackNum: nat
    var lastTs: Option<U32>
    var isCurrent: bool

    /** The machine's state agrees with the fields and with the shared index and output. */
    ghost predicate At(s: State, id: nat, current: nat, output: OutputState)
      reads this, output
    {
      && id in s.tasks
      && s.tasks[id].trackNum == trackNum && s.tasks[id].lastTs == lastTs && s.tasks[id].isCurrent == isCurrent
      && s.current == current && s.out == output.View()
    }

    constructor ()
      ensures trackNum == 0 && lastTs == None && !isCurrent
    {
      trackNum, lastTs, isCurrent := 0, None, false;
    }

    /** The packet handler up to the write, run without interference, is a run of the machine. */
    method OnRtpPacket(current: nat, output: OutputState, ts: U32, ghost s: State, ghost id: nat)
      returns (stamp: Option<Output>, ghost run: seq<Action>, ghost s': State)
      requires At(s, id, current, output) && s.tasks[id].phase.Polling?
      modifies this, output
      ensures Reaches(s, run, s') && At(s', id, current, output)
      ensures stamp.Some? <==> current == trackNum
      ensures if stamp.Some? then s'.tasks[id].phase == Writing(|s.log|) && |s'.log| == |s.log| + 1
              && s'.log[|s.log|].timestamp == stamp.value.timestamp && s'.log[|s.log|].sequence == stamp.value.sequence
              else s'.tasks[id].phase == Polling && s'.log == s.log
    {
      stamp, s' := None, s;
      run := [];
      run, s' := Continue(s, run, s', Packet(id, ts));
      var delta := if lastTs.Some? then WrappingSub(ts, lastTs.value) else 0;
      lastTs := Some(ts);
      run, s' := Continue(s, run, s', ReadIndex(id));
      if current != trackNum {
        isCurrent := false;
      } else {
        isCurrent := true;
        run, s' := Continue(s, run, s', StampPacket(id));
        var timestamp, sequence := output.StampNext(delta);
        stamp := Some(Output(timestamp, sequence));
      }
    }
  }

  // ------------------------------------------------------------------ invariants

  /** The step from the packet before to the `n`-th packet, 0 for the first. */
  function Delta(received: seq<nat>, n: nat): nat
    requires n <= |received|
  {
    if n < 2 then 0 else WrappingSub(received[n - 1], received[n - 2])
  }

  predicate HoldsPacket(t: Task) {
    t.phase.Measured? || t.phase.Chosen?
  }

  predicate TaskOk(t: Task) {
    && t.lastTs == (if t.received == [] then None else Some(t.received[|t.received| - 1]))
    && (forall i :: 0 <= i < |t.received| ==> t.received[i] < TS_MOD)
    && (HoldsPacket(t) ==> t.received != [] && t.phase.delta == Delta(t.received, |t.received|))
  }

  predicate TasksOk(tasks: map<nat, Task>) {
    forall id :: id in tasks ==> TaskOk(tasks[id])
  }

  /** A stamped packet was measured against the packet its task received just before, and its task is done with it. */
  predicate EntryOk(tasks: map<nat, Task>, e: Stamped) {
    && e.task in tasks
    && 0 < e.place <= |tasks[e.task].received|
    && e.delta == Delta(tasks[e.task].received, e.place)
    && (HoldsPacket(tasks[e.task]) ==> e.place < |tasks[e.task].received|)
  }

  predicate EntriesOk(tasks: map<nat, Task>, log: seq<Stamped>) {
    forall i :: 0 <= i < |log| ==> EntryOk(tasks, log[i])
  }

  /** A task's packets are stamped in order, none twice. */
  predicate Ordered(log: seq<Stamped>) {
    forall i, j :: 0 <= i < j < |log| && log[i].task == log[j].task ==> log[i].place < log[j].place
  }

  function Total(log: seq<Stamped>): nat {
    if log == [] then 0 else Total(log[..|log| - 1]) + log[|log| - 1].delta
  }

  predicate StampedAs(log: seq<Stamped>, i: nat)
    requires i < |log|
  {
    && log[i].sequence == (i + 1) % SEQ_MOD
    && log[i].timestamp == Total(log[..i + 1]) % TS_MOD
  }

  predicate StampsOk(out: Output, log: seq<Stamped>) {
    && out == Output(Total(log) % TS_MOD, |log| % SEQ_MOD)
    && forall i :: 0 <= i < |log| ==> StampedAs(log, i)
  }

  predicate IndexOk(s: State) {
    && (if s.trackCount == 0 then s.current == 0 && s.timer.Sleeping? else s.current < s.trackCount)
    && (!s.timer.Sleeping? ==> 0 < s.timer.count <= s.trackCount)
    && (s.timer.HasIndex? ==> s.timer.index == s.current)
  }

  predicate Inv(s: State) {
    TasksOk(s.tasks) && EntriesOk(s.tasks, s.log) && Ordered(s.log) && StampsOk(s.out, s.log) && IndexOk(s)
  }

  lemma TasksKept(s: State, a: Action)
    requires TasksOk(s.tasks) && Enabled(s, a)
    ensures TasksOk(Apply(s, a).tasks)
  {
  }

  lemma EntriesKept(s: State, a: Action)
    requires TasksOk(s.tasks) && EntriesOk(s.tasks, s.log) && Enabled(s, a)
    ensures EntriesOk(Apply(s, a).tasks, Apply(s, a).log)
  {
  }

  lemma OrderKept(s: State, a: Action)
    requires EntriesOk(s.tasks, s.log) && Ordered(s.log) && Enabled(s, a)
    ensures Ordered(Apply(s, a).log)
  {
  }

  lemma StampKept(out: Output, log: seq<Stamped>, e: Stamped)
    requires StampsOk(out, log)
    requires var next := Stamp(out, e.delta); e.timestamp == next.timestamp && e.sequence == next.sequence
    ensures StampsOk(Stamp(out, e.delta), log + [e])
  {
    var after := log + [e];
    assert after[..|log|] == log;
    assert after[..|log| + 1] == after;
    ModPlus(Total(log), e.delta, TS_MOD);
    ModPlus(|log|, 1, SEQ_MOD);
    forall i | 0 <= i < |after|
      ensures StampedAs(after, i)
    {
      if i < |log| {
        assert StampedAs(log, i);
        assert after[..i + 1] == log[..i + 1];
      }
    }
  }

  lemma StepInv(s: State, a: Action)
    requires Inv(s) && Enabled(s, a)
    ensures Inv(Apply(s, a))
  {
    TasksKept(s, a);
    EntriesKept(s, a);
    OrderKept(s, a);
    if a.StampPacket? {
      StampKept(s.out, s.log, Apply(s, a).log[|s.log|]);
    }
  }

  lemma {:induction false} RunInv(s: State, run: seq<Action>)
    requires Inv(s) && ValidRun(s, run)
    ensures Inv(Exec(s, run))
    decreases |run|
  {
    if run != [] {
      StepInv(s, run[0]);
      RunInv(Apply(s, run[0]), run[1..]);
    }
  }

  // -------------------------------------------------------------------- theorems

  /**
   * Under any interleaving of the track tasks and the timer the n-th stamped packet has sequence
   * number n and the sum of all timestamp steps so far, both modulo their field.
   */
  lemma StampsAreSequential(run: seq<Action>, i: nat)
    requires ValidRun(INIT, run) && i < |Exec(INIT, run).log|
    ensures var log := Exec(INIT, run).log;
      && log[i].sequence == (i + 1) % SEQ_MOD
      && log[i].timestamp == Total(log[..i + 1]) % TS_MOD
  {
    RunInv(INIT, run);
    assert StampedAs(Exec(INIT, run).log, i);
  }

  /** Once a track is known the active index names one. */
  lemma ActiveIndexInRange(run: seq<Action>)
    requires ValidRun(INIT, run) && Exec(INIT, run).trackCount > 0
    ensures Exec(INIT, run).current < Exec(INIT, run).trackCount
  {
    RunInv(INIT, run);
  }

  predicate OfTask(a: Action, id: nat) {
    match a
    case LoadCount => false
    case LoadIndex => false
    case StoreIndex => false
    case _ => a.task == id
  }

  lemma {:induction false} EndedStays(s: State, id: nat, run: seq<Action>)
    requires id in s.tasks && s.tasks[id].phase.Ended? && ValidRun(s, run)
    ensures forall i :: 0 <= i < |run| ==> !OfTask(run[i], id)
    decreases |run|
  {
    if run != [] {
      EndedStays(Apply(s, run[0]), id, run[1..]);
    }
  }

  /** A task whose write fails, or whose track ends, does nothing more. */
  lemma EndedTaskIsSilent(s: State, id: nat, a: Action, more: seq<Action>)
    requires (a == End(id) || a == Write(id, false)) && ValidRun(s, [a] + more)
    ensures forall i :: 0 <= i < |more| ==> !OfTask(more[i], id)
  {
    assert ([a] + more)[1..] == more;
    EndedStays(Apply(s, a), id, more);
  }

  /** A task's packets are stamped in the order they came, each at most once. */
  lemma StampedInOrder(run: seq<Action>, i: nat, j: nat)
    requires ValidRun(INIT, run)
    requires var log := Exec(INIT, run).log; i < j < |log| && log[i].task == log[j].task
    ensures Exec(INIT, run).log[i].place < Exec(INIT, run).log[j].place
  {
    RunInv(INIT, run);
  }

  /** The `n`-th packet of a task has been stamped. */
  predicate WasStamped(s: State, id: nat, n: nat) {
    exists i :: 0 <= i < |s.log| && s.log[i].task == id && s.log[i].place == n
  }

  /** It has not, and its task has gone on to a later one or waits for it. */
  predicate Passed(s: State, id: nat, n: nat) {
    && id in s.tasks
    && n <= |s.tasks[id].received|
    && (HoldsPacket(s.tasks[id]) ==> n < |s.tasks[id].received|)
    && !WasStamped(s, id, n)
  }

  lemma PassedStays(s: State, a: Action, id: nat, n: nat)
    requires Passed(s, id, n) && Enabled(s, a)
    ensures Passed(Apply(s, a), id, n)
  {
    assert forall i :: 0 <= i < |s.log| ==> Apply(s, a).log[i] == s.log[i];
  }

  lemma {:induction false} PassedForGood(s: State, run: seq<Action>, id: nat, n: nat)
    requires Passed(s, id, n) && ValidRun(s, run)
    ensures !WasStamped(Exec(s, run), id, n)
    decreases |run|
  {
    if run != [] {
      PassedStays(s, run[0], id, n);
      PassedForGood(Apply(s, run[0]), run[1..], id, n);
    }
  }

  /**
   * A packet is ever stamped if and only if its track is the active one when its task reads the
   * index, whatever the timer does before and after.
   */
  lemma StampedIffActive(s: State, id: nat)
    requires Inv(s) && id in s.tasks && s.tasks[id].phase.Measured?
    ensures var t := Apply(s, ReadIndex(id));
      (exists run :: StampsIn(t, run, id, |s.tasks[id].received|)) <==> s.current == s.tasks[id].trackNum
  {
    var n, t := |s.tasks[id].received|, Apply(s, ReadIndex(id));
    assert !WasStamped(t, id, n);
    if s.current == s.tasks[id].trackNum {
      var u := Apply(t, StampPacket(id));
      assert u.log[|t.log|].task == id && u.log[|t.log|].place == n;
      ReachesStep(t, [], t, StampPacket(id));
      assert StampsIn(t, [] + [StampPacket(id)], id, n);
    } else {
      forall run | ValidRun(t, run)
        ensures !WasStamped(Exec(t, run), id, n)
      {
        PassedForGood(t, run, id, n);
      }
    }
  }

  predicate StampsIn(s: State, run: seq<Action>, id: nat, n: nat) {
    ValidRun(s, run) && WasStamped(Exec(s, run), id, n)
  }

  /** The timestamp a stamped packet came in with. */
  function Incoming(s: State, e: Stamped): nat
    requires EntryOk(s.tasks, e)
  {
    s.tasks[e.task].received[e.place - 1]
  }

  /** The timestamp of the packet the same task received just before a stamped one. */
  function Preceding(s: State, e: Stamped): nat
    requires EntryOk(s.tasks, e) && e.place > 1
  {
    s.tasks[e.task].received[e.place - 2]
  }

  lemma SubOfSum(total: nat, delta: nat)
    requires delta < TS_MOD
    ensures WrappingSub((total + delta) % TS_MOD, total % TS_MOD) == delta
  {
    var t := total % TS_MOD;
    ModPlus(total, delta, TS_MOD);
    ModPlus(t + delta, -t, TS_MOD);
  }

  lemma SubInjective(x: nat, y: nat, z: nat)
    requires x < TS_MOD && y < TS_MOD && z < TS_MOD
    ensures WrappingSub(x, y) == WrappingSub(x, z) <==> y == z
  {
  }

  /** Two packets of one task stamped in a row, with nothing of another task between them. */
  predicate InARow(s: State, i: nat) {
    i + 1 < |s.log| && s.log[i].task == s.log[i + 1].task
  }

  lemma NextInRow(s: State, i: nat)
    requires Inv(s) && InARow(s, i)
    ensures EntryOk(s.tasks, s.log[i]) && EntryOk(s.tasks, s.log[i + 1])
    ensures 0 < s.log[i].place < s.log[i + 1].place
  {
  }

  predicate SpacingKept(s: State, i: nat)
    requires InARow(s, i) && EntryOk(s.tasks, s.log[i]) && EntryOk(s.tasks, s.log[i + 1])
  {
    WrappingSub(s.log[i + 1].timestamp, s.log[i].timestamp)
    == WrappingSub(Incoming(s, s.log[i + 1]), Incoming(s, s.log[i]))
  }

  /** The output always moves by the step from the packet received just before. */
  lemma OutputStep(s: State, i: nat)
    requires Inv(s) && InARow(s, i)
    ensures EntryOk(s.tasks, s.log[i + 1]) && s.log[i + 1].place > 1
    ensures WrappingSub(s.log[i + 1].timestamp, s.log[i].timestamp)
         == WrappingSub(Incoming(s, s.log[i + 1]), Preceding(s, s.log[i + 1]))
  {
    NextInRow(s, i);
    assert StampedAs(s.log, i) && StampedAs(s.log, i + 1);
    assert s.log[..i + 2][..i + 1] == s.log[..i + 1];
    SubOfSum(Total(s.log[..i + 1]), s.log[i + 1].delta);
  }

  /**
   * Two packets of one task stamped in a row keep their incoming timestamp difference exactly
   * when the packet received just before the second carries the timestamp of the first: so always
   * when the task dropped nothing in between, and not when it was inactive meanwhile.
   */
  lemma SpacingKeptIff(run: seq<Action>, i: nat)
    requires ValidRun(INIT, run) && InARow(Exec(INIT, run), i)
    ensures var s := Exec(INIT, run);
      && EntryOk(s.tasks, s.log[i]) && EntryOk(s.tasks, s.log[i + 1]) && s.log[i + 1].place > 1
      && SpacingKept(s, i) == (Preceding(s, s.log[i + 1]) == Incoming(s, s.log[i]))
      && (s.log[i + 1].place == s.log[i].place + 1 ==> SpacingKept(s, i))
  {
    RunInv(INIT, run);
    var s := Exec(INIT, run);
    NextInRow(s, i);
    OutputStep(s, i);
    var t := s.tasks[s.log[i].task];
    assert TaskOk(t);
    SubInjective(Incoming(s, s.log[i + 1]), Preceding(s, s.log[i + 1]), Incoming(s, s.log[i]));
  }

  // ------------------------------------------- a run that does not keep the spacing

  lemma Swap(run: seq<Action>, s: State) returns (run': seq<Action>, s': State)
    requires Reaches(INIT, run, s) && s.timer.Sleeping? && s.trackCount > 0
    ensures Reaches(INIT, run', s') && s' == s.(current := (s.current + 1) % s.trackCount)
  {
    run', s' := Continue(INIT, run, s, LoadCount);
    run', s' := Continue(INIT, run', s', LoadIndex);
    run', s' := Continue(INIT, run', s', StoreIndex);
  }

  lemma PassOn(run: seq<Action>, s: State, ts: nat) returns (run': seq<Action>, s': State)
    requires Reaches(INIT, run, s) && ts < TS_MOD
    requires 0 in s.tasks && s.tasks[0].phase.Polling? && s.tasks[0].trackNum == s.current
    requires TaskOk(s.tasks[0])
    ensures Reaches(INIT, run', s')
    ensures var t := s.tasks[0];
      var received := t.received + [ts];
      var out := Stamp(s.out, Delta(received, |received|));
      s' == s.(tasks := s.tasks[0 := Task(t.trackNum, Some(ts), true, Polling, received)], out := out,
        log := s.log + [Stamped(0, |received|, Delta(received, |received|), out.timestamp, out.sequence)],
        written := s.written + [|s.log|])
  {
    run', s' := Continue(INIT, run, s, Packet(0, ts));
    run', s' := Continue(INIT, run', s', ReadIndex(0));
    run', s' := Continue(INIT, run', s', StampPacket(0));
    run', s' := Continue(INIT, run', s', Write(0, true));
  }

  lemma Drop(run: seq<Action>, s: State, ts: nat) returns (run': seq<Action>, s': State)
    requires Reaches(INIT, run, s) && ts < TS_MOD
    requires 0 in s.tasks && s.tasks[0].phase.Polling? && s.tasks[0].trackNum != s.current
    ensures Reaches(INIT, run', s')
    ensures var t := s.tasks[0];
      s' == s.(tasks := s.tasks[0 := Task(t.trackNum, Some(ts), false, Polling, t.received + [ts])])
  {
    run', s' := Continue(INIT, run, s, Packet(0, ts));
    run', s' := Continue(INIT, run', s', ReadIndex(0));
  }

  lemma FirstStamped() returns (run: seq<Action>, s: State)
    ensures Reaches(INIT, run, s)
    ensures s == State(1, 2, Output(0, 1), map[0 := Task(1, Some(100), true, Polling, [100])], Sleeping,
                       [Stamped(0, 1, 0, 0, 1)], [0])
  {
    run, s := [], INIT;
    run, s := Continue(INIT, run, s, Spawn(0));
    run, s := Continue(INIT, run, s, Open(0, 1));
    run, s := Swap(run, s);
    run, s := PassOn(run, s, 100);
    assert s.tasks[0].received == [100];
    assert s.tasks[0] == Task(1, Some(100), true, Polling, [100]);
    assert s.tasks == map[0 := s.tasks[0]];
  }

  /** A track that was inactive for one of its packets: the gap of 200 comes out as 100. */
  lemma SpacingCanBreak() returns (run: seq<Action>)
    ensures ValidRun(INIT, run)
    ensures var s := Exec(INIT, run);
      && InARow(s, 0)
      && EntryOk(s.tasks, s.log[0]) && EntryOk(s.tasks, s.log[1])
      && !SpacingKept(s, 0)
  {
    var s;
    run, s := FirstStamped();
    run, s := Swap(run, s);
    run, s := Drop(run, s, 200);
    run, s := Swap(run, s);
    run, s := PassOn(run, s, 300);
  }
}
