/** The order in which stamped packets are written out. */
module SpliceWire {
  import opened Splice

  /** Task `id` has stamped packet `e` and not yet written it. */
  predicate PendingAt(s: State, id: nat, e: nat) {
    id in s.tasks && s.tasks[id].phase == Writing(e)
  }

  ghost predicate Pending(s: State, e: nat) {
    exists id: nat :: PendingAt(s, id, e)
  }

  /** What is written or pending was stamped, and nothing pending is written yet. */
  ghost predicate WireOk(s: State) {
    && (forall i :: 0 <= i < |s.written| ==> s.written[i] < |s.log|)
    && (forall id: nat, e: nat :: PendingAt(s, id, e) ==> e < |s.log| && s.log[e].task == id && e !in s.written)
  }

  lemma WireKept(s: State, a: Action)
    requires WireOk(s) && Enabled(s, a)
    ensures WireOk(Apply(s, a))
  {
    var t := Apply(s, a);
    if a.Write? {
      assert PendingAt(s, a.task, s.tasks[a.task].phase.entry);
    }
    forall id: nat, e: nat | PendingAt(t, id, e)
      ensures e < |t.log| && t.log[e].task == id && e !in t.written
    {
      if a != StampPacket(id) {
        assert PendingAt(s, id, e);
      }
    }
  }

  predicate InOrder(written: seq<nat>) {
    forall i, j :: 0 <= i < j < |written| ==> written[i] < written[j]
  }

  /** Everything pending is newer than everything written, which is in order. */
  ghost predicate Safe(s: State) {
    && InOrder(s.written)
    && forall i, e: nat :: 0 <= i < |s.written| && Pending(s, e) ==> s.written[i] < e
  }

  /** The step writes a packet while an older one is still pending. */
  ghost predicate Overtakes(s: State, a: Action) {
    a.Write? && a.ok && a.task in s.tasks && s.tasks[a.task].phase.Writing?
    && exists e: nat :: Pending(s, e) && e < s.tasks[a.task].phase.entry
  }

  ghost predicate NoOvertaking(s: State, run: seq<Action>)
    requires ValidRun(s, run)
    decreases |run|
  {
    run == [] || (!Overtakes(s, run[0]) && NoOvertaking(Apply(s, run[0]), run[1..]))
  }

  lemma StillPending(s: State, a: Action, e: nat)
    requires Enabled(s, a) && Pending(Apply(s, a), e)
    ensures Pending(s, e) || (a.StampPacket? && e == |s.log|)
  {
    var id :| PendingAt(Apply(s, a), id, e);
    if a != StampPacket(id) {
      assert PendingAt(s, id, e);
    }
  }

  lemma WrittenIsNotPending(s: State, a: Action)
    requires WireOk(s) && Enabled(s, a) && a.Write?
    ensures !Pending(Apply(s, a), s.tasks[a.task].phase.entry)
  {
    var e, t := s.tasks[a.task].phase.entry, Apply(s, a);
    assert PendingAt(s, a.task, e);
    if Pending(t, e) {
      var id :| PendingAt(t, id, e);
      assert PendingAt(s, id, e);
    }
  }

  lemma SafeKept(s: State, a: Action)
    requires WireOk(s) && Safe(s) && Enabled(s, a) && !Overtakes(s, a)
    ensures Safe(Apply(s, a))
  {
    var t := Apply(s, a);
    if a.Write? {
      assert PendingAt(s, a.task, s.tasks[a.task].phase.entry);
      assert Pending(s, s.tasks[a.task].phase.entry);
      WrittenIsNotPending(s, a);
    }
    forall i, e: nat | 0 <= i < |t.written| && Pending(t, e)
      ensures t.written[i] < e
    {
      StillPending(s, a, e);
    }
  }

  /** As long as no write overtakes an older packet, packets are written in the order of their numbers. */
  lemma {:induction false} WrittenInOrder(s: State, run: seq<Action>)
    requires WireOk(s) && Safe(s) && ValidRun(s, run) && NoOvertaking(s, run)
    ensures InOrder(Exec(s, run).written)
    decreases |run|
  {
    if run != [] {
      WireKept(s, run[0]);
      SafeKept(s, run[0]);
      WrittenInOrder(Apply(s, run[0]), run[1..]);
    }
  }

  // ------------------------------------------------- an overtaking cannot be undone

  predicate WrittenAfter(written: seq<nat>, i: nat, e: nat) {
    exists j :: i < j < |written| && written[j] == e
  }

  /** Packet `e` comes, or will come, after the newer packet at place `i`. */
  ghost predicate InvertedAt(s: State, i: nat, e: nat) {
    i < |s.written| && e < s.written[i] && (Pending(s, e) || WrittenAfter(s.written, i, e))
  }

  predicate AllWritten(run: seq<Action>) {
    forall i :: 0 <= i < |run| && run[i].Write? ==> run[i].ok
  }

  lemma InvertedStays(s: State, a: Action, i: nat, e: nat)
    requires InvertedAt(s, i, e) && Enabled(s, a) && (a.Write? ==> a.ok)
    ensures InvertedAt(Apply(s, a), i, e)
  {
    var t := Apply(s, a);
    assert s.written <= t.written;
    if WrittenAfter(s.written, i, e) {
      var j :| i < j < |s.written| && s.written[j] == e;
      assert t.written[j] == e;
    } else {
      var id :| PendingAt(s, id, e);
      if a == Write(id, true) {
        assert t.written[|s.written|] == e;
      } else {
        assert PendingAt(t, id, e);
      }
    }
  }

  lemma {:induction false} InvertedForGood(s: State, run: seq<Action>, i: nat, e: nat)
    requires InvertedAt(s, i, e) && ValidRun(s, run) && AllWritten(run)
    ensures InvertedAt(Exec(s, run), i, e)
    decreases |run|
  {
    if run != [] {
      InvertedStays(s, run[0], i, e);
      InvertedForGood(Apply(s, run[0]), run[1..], i, e);
    }
  }

  lemma OvertakingInverts(s: State, a: Action) returns (i: nat, e: nat)
    requires Enabled(s, a) && Overtakes(s, a)
    ensures InvertedAt(Apply(s, a), i, e)
  {
    i := |s.written|;
    e :| Pending(s, e) && e < s.tasks[a.task].phase.entry;
    var id :| PendingAt(s, id, e);
    assert PendingAt(Apply(s, a), id, e);
  }

  ghost predicate NonePending(s: State) {
    forall e: nat :: !Pending(s, e)
  }

  lemma {:induction false} OvertakingShows(s: State, run: seq<Action>)
    requires ValidRun(s, run) && AllWritten(run) && !NoOvertaking(s, run) && NonePending(Exec(s, run))
    ensures !InOrder(Exec(s, run).written)
    decreases |run|
  {
    if Overtakes(s, run[0]) {
      var i, e := OvertakingInverts(s, run[0]);
      InvertedForGood(Apply(s, run[0]), run[1..], i, e);
    } else {
      OvertakingShows(Apply(s, run[0]), run[1..]);
    }
  }

  /**
   * When every packet stamped has been written, the packets went out in the order of their numbers
   * exactly when no task wrote while an older packet of another was stamped and unwritten.
   */
  lemma WireOrderIff(run: seq<Action>)
    requires ValidRun(INIT, run) && AllWritten(run) && NonePending(Exec(INIT, run))
    ensures InOrder(Exec(INIT, run).written) <==> NoOvertaking(INIT, run)
  {
    if NoOvertaking(INIT, run) {
      WrittenInOrder(INIT, run);
    } else {
      OvertakingShows(INIT, run);
    }
  }

  /** A swap between the stamps of two tasks, and the second writes first. */
  lemma WireCanReorder() returns (run: seq<Action>)
    ensures ValidRun(INIT, run)
    ensures Exec(INIT, run).written == [1, 0]
  {
    var s;
    run, s := BothStamped();
    run, s := Continue(INIT, run, s, Write(1, true));
    run, s := Continue(INIT, run, s, Write(0, true));
  }

  lemma BothStamped() returns (run: seq<Action>, s: State)
    ensures Reaches(INIT, run, s) && PendingAt(s, 0, 0) && PendingAt(s, 1, 1) && s.written == []
  {
    run, s := FirstPending();
    run, s := Swap(run, s);
    run, s := Continue(INIT, run, s, Packet(1, 500));
    run, s := Continue(INIT, run, s, ReadIndex(1));
    run, s := Continue(INIT, run, s, StampPacket(1));
  }

  lemma FirstPending() returns (run: seq<Action>, s: State)
    ensures Reaches(INIT, run, s) && PendingAt(s, 0, 0) && s.written == [] && |s.log| == 1
    ensures s.current == 0 && s.trackCount == 2 && s.timer == Sleeping
    ensures 1 in s.tasks && s.tasks[1].phase == Polling && s.tasks[1].trackNum == 1
  {
    run, s := [], INIT;
    run, s := Continue(INIT, run, s, Spawn(0));
    run, s := Continue(INIT, run, s, Spawn(1));
    run, s := Continue(INIT, run, s, Open(0, 0));
    run, s := Continue(INIT, run, s, Open(1, 1));
    run, s := Continue(INIT, run, s, Packet(0, 100));
    run, s := Continue(INIT, run, s, ReadIndex(0));
    run, s := Continue(INIT, run, s, StampPacket(0));
  }
}
