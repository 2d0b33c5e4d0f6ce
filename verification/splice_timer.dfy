/** The swap timer: which track is active after any number of swaps, and what the tasks are numbered. */
module SpliceTimer {
  import opened Modular
  import opened Splice

  /** The largest track number opened in a run, plus one. */
  function HighestOpened(run: seq<Action>): nat {
    if run == [] then 0
    else
      var rest := HighestOpened(run[1..]);
      if run[0].Open? && run[0].receiver + 1 > rest then run[0].receiver + 1 else rest
  }

  /** The track count is one more than the highest number any track was opened with. */
  lemma {:induction false} CountIsHighest(s: State, run: seq<Action>)
    requires ValidRun(s, run)
    ensures var highest := HighestOpened(run);
      Exec(s, run).trackCount == if highest > s.trackCount then highest else s.trackCount
    decreases |run|
  {
    if run != [] {
      CountIsHighest(Apply(s, run[0]), run[1..]);
    }
  }

  /** The number a task was last opened with. */
  function LatestOpened(run: seq<Action>, id: nat, otherwise: nat): nat {
    if run == [] then otherwise
    else LatestOpened(run[1..], id, if run[0].Open? && run[0].task == id then run[0].receiver else otherwise)
  }

  lemma {:induction false} NumberIsLatest(s: State, run: seq<Action>, id: nat)
    requires ValidRun(s, run) && id in s.tasks
    ensures id in Exec(s, run).tasks && Exec(s, run).tasks[id].trackNum == LatestOpened(run, id, s.tasks[id].trackNum)
    decreases |run|
  {
    if run != [] {
      NumberIsLatest(Apply(s, run[0]), run[1..], id);
    }
  }

  function Swaps(run: seq<Action>): nat {
    if run == [] then 0 else (if run[0].StoreIndex? then 1 else 0) + Swaps(run[1..])
  }

  lemma {:induction false} CountGrows(s: State, run: seq<Action>)
    requires ValidRun(s, run)
    ensures s.trackCount <= Exec(s, run).trackCount
    decreases |run|
  {
    if run != [] {
      CountGrows(Apply(s, run[0]), run[1..]);
    }
  }

  /** The timer, if it is on its way to a swap, has read the present track count. */
  predicate Current(s: State) {
    s.timer.Sleeping? || s.timer.count == s.trackCount
  }

  lemma SwapStep(s: State, a: Action)
    requires Inv(s) && Current(s) && Enabled(s, a) && Apply(s, a).trackCount == s.trackCount
    ensures Current(Apply(s, a))
    ensures Apply(s, a).current == if a.StoreIndex? then (s.current + 1) % s.trackCount else s.current
  {
  }

  /** While no track with a new highest number appears, every swap moves on to the next track, the first
      after the last: after `k` swaps the active one is `k` further. */
  lemma {:induction false} SwapsRotate(s: State, run: seq<Action>)
    requires Inv(s) && Current(s) && ValidRun(s, run) && s.trackCount > 0 && Exec(s, run).trackCount == s.trackCount
    ensures Exec(s, run).current == (s.current + Swaps(run)) % s.trackCount
    decreases |run|
  {
    var n := s.trackCount;
    if run == [] {
      ModUnique(s.current, 0, s.current, n);
    } else {
      var t, rest := Apply(s, run[0]), run[1..];
      CountGrows(t, rest);
      assert t.trackCount >= s.trackCount;
      SwapStep(s, run[0]);
      StepInv(s, run[0]);
      SwapsRotate(t, rest);
      ModPlus(s.current + 1, Swaps(rest), n);
    }
  }
}
