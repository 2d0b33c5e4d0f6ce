/** Progress of the wake protocol: how few driver steps a flush or a shutdown takes, that the
    driver is never blocked while it owes one, and which output a shutdown leaves behind. */
module WakeProgress {
  import opened WakeProtocol

  // ------------------------------------------------------------------ shutdown

  /** Driver steps left until the loop returns, once a shutdown wake was attempted. */
  function ShutdownRank(d: Driver): nat {
    match d
    case Gate => 6
    case Draining => 5
    case Polling => 4
    case Selecting => 3
    case Handling(_) => 2
    case Top => 1
    case Exited => 0
  }

  lemma WakeAttemptStays(s: State, a: Action)
    requires WakeAttempted(s) && Enabled(s, a)
    ensures WakeAttempted(Apply(s, a))
  {
    var id :| CloserAt(s, id, Finished);
    assert CloserAt(Apply(s, a), id, Finished);
  }

  lemma ShutdownStep(s: State, a: Action)
    requires s.closing && Enabled(s, a)
    ensures ShutdownRank(Apply(s, a).driver) + (if IsDriver(a) then 1 else 0) <= ShutdownRank(s.driver)
  {
  }

  lemma {:induction false} ShutdownRun(s: State, run: seq<Action>)
    requires Inv(s) && WakeAttempted(s) && ValidRun(s, run)
    ensures WakeAttempted(Exec(s, run))
    ensures ShutdownRank(Exec(s, run).driver) + DriverSteps(run) <= ShutdownRank(s.driver)
    decreases |run|
  {
    if run != [] {
      StepInv(s, run[0]);
      WakeAttemptStays(s, run[0]);
      ShutdownStep(s, run[0]);
      ShutdownRun(Apply(s, run[0]), run[1..]);
    }
  }

  /** After a shutdown wake was attempted, whether or not it was enqueued, the driver takes at most
      six more steps under every interleaving, and until it has returned one of its own steps is
      enabled without any timer, socket or further event. */
  lemma ShutdownCompletes(dedicated: bool, run: seq<Action>, more: seq<Action>)
    requires ValidRun(Init(dedicated), run)
    requires ValidRun(Exec(Init(dedicated), run), more)
    requires WakeAttempted(Exec(Init(dedicated), run))
    ensures DriverSteps(more) <= 6
    ensures var t := Exec(Exec(Init(dedicated), run), more);
            t.driver == Exited || exists a :: IsUnaided(a) && Enabled(t, a)
  {
    var s := Exec(Init(dedicated), run);
    InitInv(dedicated);
    RunInv(Init(dedicated), run);
    ShutdownRun(s, more);
    RunInv(s, more);
    UnaidedStep(Exec(s, more));
  }

  /** A live driver can step by itself unless it is blocked on an empty channel. */
  lemma UnaidedStep(s: State)
    requires s.driver == Selecting ==> s.chan != []
    ensures s.driver == Exited || exists a :: IsUnaided(a) && Enabled(s, a)
  {
    if s.driver != Exited {
      var a := match s.driver
        case Top => CheckClosing
        case Gate => ClearPending
        case Draining => Drain
        case Polling => Poll([], false)
        case Selecting => Receive
        case _ => Handle([]);
      assert IsUnaided(a) && Enabled(s, a);
    }
  }

  // ------------------------------------------------------- when the driver returns

  /** No error ends the driver in this run. */
  predicate NoFail(run: seq<Action>) {
    forall i :: 0 <= i < |run| ==> !run[i].Fail?
  }

  ghost predicate CloserActed(s: State) {
    forall id :: id in s.closers && (s.closers[id].Flagged? || s.closers[id] == Finished) ==> s.closing
  }

  predicate NoCallerCloses(callers: map<nat, Caller>) {
    forall id :: id in callers && callers[id].Blocking? ==> callers[id].evt != Close
  }

  /** A `Close` event anywhere between its sender and its handling, or a driver that has returned, means
      that the closing flag is set. */
  ghost predicate ExitMeansClosing(s: State) {
    && CloserActed(s)
    && NoCallerCloses(s.callers)
    && (CloseUnderWay(s) ==> s.closing)
  }

  lemma CloserStep(s: State, a: Action)
    requires CloserActed(s) && Enabled(s, a)
    ensures CloserActed(Apply(s, a)) && (s.closing ==> Apply(s, a).closing)
  {
  }

  /** A step makes a caller wait only for room for another event than `Close`. */
  lemma CallerMoves(s: State, a: Action, id: nat)
    requires Enabled(s, a) && id in Apply(s, a).callers && Apply(s, a).callers[id].Blocking?
    ensures (id in s.callers && Apply(s, a).callers[id] == s.callers[id]) || Apply(s, a).callers[id].evt == Other
  {
  }

  lemma CallerStep(s: State, a: Action)
    requires NoCallerCloses(s.callers) && Enabled(s, a)
    ensures NoCallerCloses(Apply(s, a).callers)
  {
    forall id | id in Apply(s, a).callers && Apply(s, a).callers[id].Blocking?
      ensures Apply(s, a).callers[id].evt != Close
    {
      CallerMoves(s, a, id);
    }
  }

  lemma ExitStep(s: State, a: Action)
    requires ExitMeansClosing(s) && Enabled(s, a) && !a.Fail?
    ensures ExitMeansClosing(Apply(s, a))
  {
    CloserStep(s, a);
    CallerStep(s, a);
    if !s.closing {
      CloseStep(s, a);
    }
  }

  predicate CloseUnderWay(s: State) {
    Close in s.chan || s.driver == Handling(Close) || s.driver == Exited
  }

  lemma CloseStep(s: State, a: Action)
    requires ExitMeansClosing(s) && Enabled(s, a) && !a.Fail? && !s.closing
    ensures CloseUnderWay(Apply(s, a)) ==> Apply(s, a).closing
  {
  }

  lemma {:induction false} ExitRun(s: State, run: seq<Action>)
    requires ExitMeansClosing(s) && ValidRun(s, run) && NoFail(run)
    ensures ExitMeansClosing(Exec(s, run))
    decreases |run|
  {
    if run != [] {
      ExitStep(s, run[0]);
      ExitRun(Apply(s, run[0]), run[1..]);
    }
  }

  lemma ReturnedStep(s: State, a: Action)
    requires s.driver == Exited && Enabled(s, a)
    ensures !IsDriver(a) && Apply(s, a).driver == Exited && Apply(s, a).past.flushed == s.past.flushed
  {
  }

  lemma {:induction false} ReturnedTakesNoStep(s: State, run: seq<Action>)
    requires s.driver == Exited && ValidRun(s, run)
    ensures DriverSteps(run) == 0 && Exec(s, run).past.flushed == s.past.flushed
    decreases |run|
  {
    if run != [] {
      ReturnedStep(s, run[0]);
      ReturnedTakesNoStep(Apply(s, run[0]), run[1..]);
    }
  }

  /** After an error, or once `close` has aborted its task, the driver takes no step and nothing is flushed. */
  lemma EndsForGood(s: State, a: Action, more: seq<Action>)
    requires (a.Fail? || a.AbortTask?) && ValidRun(s, [a] + more)
    ensures DriverSteps(more) == 0 && Exec(s, [a] + more).past.flushed == s.past.flushed
  {
    assert ([a] + more)[1..] == more;
    ReturnedTakesNoStep(Apply(s, a), more);
  }

  /** The driver's latest step, if any in the run, was a poll without an immediate deadline. */
  predicate EndsIdle(run: seq<Action>, idle: bool)
    decreases |run|
  {
    if run == [] then idle else EndsIdle(run[1..], IdleAfter(run[0], idle))
  }

  predicate IdleAfter(a: Action, idle: bool) {
    if IsDriver(a) then a.Poll? && !a.immediate else idle
  }

  lemma BlocksStep(s: State, a: Action, idle: bool)
    requires Enabled(s, a) && (s.driver == Selecting <==> idle && Live(s))
    ensures Apply(s, a).driver == Selecting <==> IdleAfter(a, idle) && Live(Apply(s, a))
  {
    if !IsDriver(a) {
      OthersLeaveDriver(s, a);
    }
  }

  lemma OthersLeaveDriver(s: State, a: Action)
    requires Enabled(s, a) && !IsDriver(a)
    ensures Apply(s, a).driver == if a.AbortTask? then Exited else s.driver
  {
  }

  lemma {:induction false} BlocksRun(s: State, run: seq<Action>, idle: bool)
    requires ValidRun(s, run) && (s.driver == Selecting <==> idle && Live(s))
    ensures Exec(s, run).driver == Selecting <==> EndsIdle(run, idle) && Live(Exec(s, run))
    decreases |run|
  {
    if run != [] {
      BlocksStep(s, run[0], idle);
      BlocksRun(Apply(s, run[0]), run[1..], IdleAfter(run[0], idle));
    }
  }

  /** The driver waits in `select!` if and only if its latest step found no deadline due at once. */
  lemma BlocksIffIdle(dedicated: bool, run: seq<Action>)
    requires ValidRun(Init(dedicated), run)
    ensures var s := Exec(Init(dedicated), run); s.driver == Selecting <==> EndsIdle(run, false) && Live(s)
  {
    BlocksRun(Init(dedicated), run, false);
  }

  lemma {:induction false} FlaggedStays(s: State, id: nat, run: seq<Action>)
    requires CloserOf(s, id).Flagged? && ValidRun(s, run) && WakeToClose(id) !in run
    ensures CloserOf(Exec(s, run), id) == CloserOf(s, id)
    decreases |run|
  {
    if run != [] {
      FlaggedStays(Apply(s, run[0]), id, run[1..]);
    }
  }

  /** The wake of a `Drop` never waits; that of `close` waits exactly while a live driver's channel is full. */
  lemma WakeWaitsIff(s: State, a: Action, run: seq<Action>)
    requires (a.DropFlag? || a.SetClosing?) && ValidRun(s, [a] + run) && WakeToClose(a.id) !in run
    ensures var t := Exec(s, [a] + run);
      !Enabled(t, WakeToClose(a.id)) <==> a.SetClosing? && Live(t) && !HasRoom(t)
  {
    assert ([a] + run)[1..] == run;
    FlaggedStays(Apply(s, a), a.id, run);
  }

  /** Over every run without an error the driver has returned only if a `close` or a `Drop` asked for it. */
  lemma ReturnsOnlyWhenClosing(dedicated: bool, run: seq<Action>)
    requires ValidRun(Init(dedicated), run) && NoFail(run)
    ensures Exec(Init(dedicated), run).driver == Exited ==> Exec(Init(dedicated), run).closing
  {
    ExitRun(Init(dedicated), run);
  }

  lemma {:induction false} ClosingNeedsCloser(s: State, run: seq<Action>)
    requires ValidRun(s, run) && !s.closing && forall i :: 0 <= i < |run| ==> !run[i].SetClosing? && !run[i].DropFlag?
    ensures !Exec(s, run).closing
    decreases |run|
  {
    if run != [] {
      ClosingNeedsCloser(Apply(s, run[0]), run[1..]);
    }
  }

  // --------------------------------------------------------------------- flush

  /** Driver steps left until the next drain has happened. */
  function FlushRank(d: Driver): nat {
    match d
    case Polling => 6
    case Selecting => 5
    case Handling(_) => 4
    case Top => 3
    case Gate => 2
    case Draining => 1
    case Exited => 0
  }

  lemma {:induction false} FlushedGrows(s: State, run: seq<Action>)
    requires ValidRun(s, run)
    ensures s.past.flushed <= Exec(s, run).past.flushed
    decreases |run|
  {
    if run != [] {
      FlushedGrows(Apply(s, run[0]), run[1..]);
    }
  }

  lemma {:induction false} ExitIsFinal(s: State, run: seq<Action>)
    requires ValidRun(s, run) && s.driver == Exited
    ensures Exec(s, run).driver == Exited
    decreases |run|
  {
    if run != [] {
      ExitIsFinal(Apply(s, run[0]), run[1..]);
    }
  }

  lemma StepTowardsDrain(s: State, a: Action)
    requires Enabled(s, a) && a != Drain && Apply(s, a).driver != Exited
    ensures FlushRank(Apply(s, a).driver) + (if IsDriver(a) then 1 else 0) <= FlushRank(s.driver)
  {
  }

  lemma StepKeepsCore(s: State, a: Action)
    requires Enabled(s, a) && a != Drain
    ensures Apply(s, a).past.flushed == s.past.flushed && s.core <= Apply(s, a).core
  {
    forall origin, tags
      ensures s.core <= Put(s, origin, tags).core
    {
    }
  }

  lemma PrefixGrows(flushed: seq<Message>, a: seq<Message>, b: seq<Message>, later: seq<Message>)
    requires a <= b && flushed + b <= later
    ensures flushed + a <= later
  {
    assert flushed + a == (flushed + b)[..|flushed| + |a|];
  }

  lemma {:induction false} DrainComes(s: State, run: seq<Action>)
    requires ValidRun(s, run)
    ensures || Exec(s, run).driver == Exited
            || s.past.flushed + s.core <= Exec(s, run).past.flushed
            || DriverSteps(run) + FlushRank(Exec(s, run).driver) <= FlushRank(s.driver)
    decreases |run|
  {
    if run != [] {
      var a, t := run[0], Apply(s, run[0]);
      if a == Drain {
        FlushedGrows(t, run[1..]);
      } else if t.driver == Exited {
        ExitIsFinal(t, run[1..]);
      } else {
        DrainComes(t, run[1..]);
        StepTowardsDrain(s, a);
        StepKeepsCore(s, a);
        if s.past.flushed + t.core <= Exec(s, run).past.flushed {
          PrefixGrows(s.past.flushed, s.core, t.core, Exec(s, run).past.flushed);
        }
      }
    }
  }

  /** Whatever is in the core is flushed, in order, by the time the driver has taken six steps,
      under every interleaving, unless a shutdown was requested or the driver met an error. */
  lemma FlushedWithinSixDriverSteps(dedicated: bool, run: seq<Action>, more: seq<Action>)
    requires ValidRun(Init(dedicated), run) && NoFail(run)
    requires ValidRun(Exec(Init(dedicated), run), more) && NoFail(more) && DriverSteps(more) >= 6
    ensures var s, t := Exec(Init(dedicated), run), Exec(Exec(Init(dedicated), run), more);
            t.closing || s.past.flushed + s.core <= t.past.flushed
  {
    var s := Exec(Init(dedicated), run);
    DrainComes(s, more);
    ExitRun(Init(dedicated), run);
    ExitRun(s, more);
  }

  /** Once the callers are at rest, a driver holding output of theirs is never blocked, and it has not
      returned unless a shutdown was requested or it met an error. */
  lemma WokenOutputNeverStuck(dedicated: bool, run: seq<Action>)
    requires ValidRun(Init(dedicated), run)
    ensures var s := Exec(Init(dedicated), run);
            && (Live(s) && HoldsWoken(s) && CallersAtRest(s) ==> exists a :: IsUnaided(a) && Enabled(s, a))
            && (NoFail(run) && !s.closing ==> Live(s))
  {
    var s := Exec(Init(dedicated), run);
    if Live(s) && HoldsWoken(s) && CallersAtRest(s) {
      NoLostFlush(dedicated, run);
      UnaidedStep(s);
    }
    if NoFail(run) {
      ExitRun(Init(dedicated), run);
    }
  }

  // ------------------------------------------------------ which output can stick

  /** A live driver that will do nothing more unless a timer, a socket or a further call moves it. */
  ghost predicate Stuck(s: State) {
    Live(s) && CallersAtRest(s) && forall a :: IsUnaided(a) ==> !Enabled(s, a)
  }

  ghost predicate SticksAfter(dedicated: bool, m: Message, run: seq<Action>) {
    ValidRun(Init(dedicated), run) && var s := Exec(Init(dedicated), run); Stuck(s) && m in s.core
  }

  /** No `close` or `Drop` is under way. */
  ghost predicate ClosersAtRest(s: State) {
    forall id :: id in s.closers ==> s.closers[id] == NotStarted || s.closers[id] == Finished
  }

  ghost predicate SticksQuietly(dedicated: bool, m: Message, run: seq<Action>) {
    SticksAfter(dedicated, m, run) && ClosersAtRest(Exec(Init(dedicated), run))
  }

  lemma {:induction false} RunAppend(s: State, run: seq<Action>, a: Action)
    requires ValidRun(s, run) && Enabled(Exec(s, run), a)
    ensures ValidRun(s, run + [a]) && Exec(s, run + [a]) == Apply(Exec(s, run), a)
    decreases |run|
  {
    if run == [] {
      assert run + [a] == [a] && [a][1..] == [];
      assert ValidRun(Apply(s, a), []);
    } else {
      RunAppend(Apply(s, run[0]), run[1..], a);
      assert (run + [a])[1..] == run[1..] + [a];
    }
  }

  /** The driver's first pass over an empty core, which ends in its blocking `select!`. */
  lemma FirstPass(dedicated: bool) returns (run: seq<Action>, s: State)
    ensures ValidRun(Init(dedicated), run) && Exec(Init(dedicated), run) == s
    ensures s.driver == Selecting && s.chan == [] && s.core == [] && !s.closing && s.past.flushed == []
    ensures s.callers == map[] && s.closers == map[]
  {
    run, s := FirstClear(dedicated);
    run, s := Then(dedicated, run, s, Drain);
    run, s := Then(dedicated, run, s, Poll([], false));
  }

  lemma FirstClear(dedicated: bool) returns (run: seq<Action>, s: State)
    ensures ValidRun(Init(dedicated), run) && Exec(Init(dedicated), run) == s
    ensures s.driver == Draining && s.chan == [] && s.core == [] && !s.closing && s.past.flushed == []
    ensures s.callers == map[] && s.closers == map[]
  {
    run, s := [], Init(dedicated);
    assert ValidRun(s, run);
    run, s := Then(dedicated, run, s, CheckClosing);
    run, s := Then(dedicated, run, s, ClearPending);
  }

  lemma Then(dedicated: bool, run: seq<Action>, s: State, a: Action) returns (run': seq<Action>, s': State)
    requires ValidRun(Init(dedicated), run) && Exec(Init(dedicated), run) == s && Enabled(s, a)
    ensures ValidRun(Init(dedicated), run') && Exec(Init(dedicated), run') == s' == Apply(s, a)
  {
    RunAppend(Init(dedicated), run, a);
    run', s' := run + [a], Apply(s, a);
  }

  lemma UnwokenSticks(dedicated: bool, m: Message) returns (run: seq<Action>)
    requires m.origin != Woken
    ensures SticksAfter(dedicated, m, run)
    ensures m.origin == Unwoken ==> SticksQuietly(dedicated, m, run)
  {
    var s;
    run, s := FirstPass(dedicated);
    run, s := Then(dedicated, run, s, if m.origin == Unwoken then Produce([m.tag]) else CloseCore(0, [m.tag]));
    assert s.core == [m];
    assert s.core[0] == m;
  }

  /** Output can be left behind a stuck driver exactly when it does not come from a call that ends in a wake. */
  lemma SticksIff(dedicated: bool, m: Message)
    ensures (exists run :: SticksAfter(dedicated, m, run)) <==> m.origin != Woken
  {
    if m.origin != Woken {
      var run := UnwokenSticks(dedicated, m);
      assert SticksAfter(dedicated, m, run);
    } else {
      forall run | ValidRun(Init(dedicated), run)
        ensures !SticksAfter(dedicated, m, run)
      {
        WokenOutputNeverStuck(dedicated, run);
        var s := Exec(Init(dedicated), run);
        if m in s.core {
          assert HoldsWoken(s);
        }
      }
    }
  }

  // Farewell output is there only while or after a close.

  ghost predicate CloserBegan(s: State, id: nat) {
    id in s.closers && s.closers[id] != NotStarted
  }

  ghost predicate FarewellHasCloser(s: State) {
    (exists i :: 0 <= i < |s.core| && s.core[i].origin == Farewell) ==> exists id :: CloserBegan(s, id)
  }

  lemma FarewellStep(s: State, a: Action)
    requires FarewellHasCloser(s) && Enabled(s, a)
    ensures FarewellHasCloser(Apply(s, a))
  {
    var t := Apply(s, a);
    if a.CloseCore? || a.SetClosing? || a.DropFlag? || a.WakeToClose? {
      assert CloserBegan(t, a.id);
    } else if exists i :: 0 <= i < |t.core| && t.core[i].origin == Farewell {
      var i :| 0 <= i < |t.core| && t.core[i].origin == Farewell;
      assert i < |s.core| && s.core[i] == t.core[i];
      var id :| CloserBegan(s, id);
      assert CloserBegan(t, id);
    }
  }

  lemma {:induction false} FarewellRun(s: State, run: seq<Action>)
    requires FarewellHasCloser(s) && ValidRun(s, run)
    ensures FarewellHasCloser(Exec(s, run))
    decreases |run|
  {
    if run != [] {
      FarewellStep(s, run[0]);
      FarewellRun(Apply(s, run[0]), run[1..]);
    }
  }

  lemma FarewellNotQuiet(dedicated: bool, m: Message, run: seq<Action>)
    requires m.origin == Farewell && ValidRun(Init(dedicated), run)
    ensures !SticksQuietly(dedicated, m, run)
  {
    var s := Exec(Init(dedicated), run);
    FarewellRun(Init(dedicated), run);
    ShutdownNeverStranded(dedicated, run);
    if m in s.core && ClosersAtRest(s) {
      var i :| 0 <= i < |s.core| && s.core[i] == m;
      var id :| CloserBegan(s, id);
      assert CloserAt(s, id, Finished);
      UnaidedStep(s);
    }
  }

  /** Once closers are at rest too, only output of the producers that never wake the driver can stick. */
  lemma SticksQuietlyIff(dedicated: bool, m: Message)
    ensures (exists run :: SticksQuietly(dedicated, m, run)) <==> m.origin == Unwoken
  {
    if m.origin == Unwoken {
      var run := UnwokenSticks(dedicated, m);
      assert SticksQuietly(dedicated, m, run);
    } else {
      SticksIff(dedicated, m);
      forall run | ValidRun(Init(dedicated), run)
        ensures !SticksQuietly(dedicated, m, run)
      {
        if m.origin == Farewell {
          FarewellNotQuiet(dedicated, m, run);
        }
      }
    }
  }

  // --------------------------------------------------------- output at shutdown

  /** With `closing` set and no drain ahead, nothing more ever reaches the sockets. */
  lemma {:induction false} NoFlushAfterClosing(s: State, run: seq<Action>)
    requires ValidRun(s, run) && s.closing && !DrainAhead(s)
    ensures Exec(s, run).past.flushed == s.past.flushed
    decreases |run|
  {
    if run != [] {
      NoFlushAfterClosing(Apply(s, run[0]), run[1..]);
    }
  }

  /** This continuation carries everything in the core to the sockets. */
  predicate Delivers(s: State, run: seq<Action>) {
    ValidRun(s, run) && s.past.flushed + s.core <= Exec(s, run).past.flushed
  }

  lemma DrainDelivers(s: State)
    requires DrainAhead(s)
    ensures exists run :: Delivers(s, run)
  {
    if s.driver == Draining {
      DeliversByDrain(s);
    } else {
      var t := Apply(s, ClearPending);
      DeliversByDrain(t);
      assert [ClearPending, Drain][1..] == [Drain];
      assert Delivers(s, [ClearPending, Drain]);
    }
  }

  lemma DeliversByDrain(s: State)
    requires s.driver == Draining
    ensures Delivers(s, [Drain])
  {
    assert [Drain][1..] == [];
    assert ValidRun(Apply(s, Drain), []);
  }

  /** `close()` hands its farewell output (and any other core output) to the driver before it sets
      the flag. That output can still reach the sockets exactly when the flag was set between the
      driver's check of it and its drain, or there was none. */
  lemma FarewellFlushedIff(s: State, id: nat)
    requires !s.closing && Enabled(s, SetClosing(id))
    ensures (exists run :: Delivers(Apply(s, SetClosing(id)), run)) <==> DrainAhead(s) || s.core == []
  {
    var t := Apply(s, SetClosing(id));
    if s.core == [] {
      assert Delivers(t, []);
    } else if DrainAhead(s) {
      DrainDelivers(t);
    } else {
      forall run | ValidRun(t, run)
        ensures !Delivers(t, run)
      {
        NoFlushAfterClosing(t, run);
      }
    }
  }

  /** Nothing in the core will ever reach the sockets. */
  ghost predicate LostForGood(s: State, m: Message) {
    m in s.core && forall more :: ValidRun(s, more) ==> Exec(s, more).past.flushed == s.past.flushed
  }

  /** A run that loses any given farewell output: the driver is blocked when `close()` produces it. */
  lemma FarewellCanBeLost(dedicated: bool, tag: nat)
    ensures exists run ::
              ValidRun(Init(dedicated), run) && LostForGood(Exec(Init(dedicated), run), Message(Farewell, tag))
  {
    var run, s := FirstPass(dedicated);
    run, s := Then(dedicated, run, s, CloseCore(0, [tag]));
    run, s := Then(dedicated, run, s, SetClosing(0));
    assert s.core == [Message(Farewell, tag)];
    assert s.core[0] == Message(Farewell, tag);
    forall more | ValidRun(s, more)
      ensures Exec(s, more).past.flushed == s.past.flushed
    {
      NoFlushAfterClosing(s, more);
    }
    assert LostForGood(Exec(Init(dedicated), run), Message(Farewell, tag));
  }
}
