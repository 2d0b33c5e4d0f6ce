/** The write-wake and shutdown protocol between API callers, closers and the driver loop.

    Every atomic step of the real program is one `Action`: a lock-protected change of the
    core, one atomic read-modify-write, one channel operation, or one leg of the driver loop.
    A run is any interleaving of such steps by any number of callers and closers. */
module WakeProtocol {
  import opened Modular

  const CAPACITY: nat := 256
  const YIELD_INTERVAL: nat := 128
  const USIZE: nat := 0x1_0000_0000_0000_0000

  datatype Event = WriteNotify | Close | Other

  /** How a piece of core output came to be: by an API call that ends in a wake, by one of the
      producers that never wake the driver, or by `core.close()`. */
  datatype Origin = Woken | Unwoken | Farewell

  datatype Message = Message(origin: Origin, tag: nat)

  /** Where an API call stands: output is in the core and the swap is next (`Enqueued`), the swap
      found the flag clear (`Won`) or set (`Lost`), or an awaited channel send is next. */
  datatype Caller = Idle | Enqueued | Won | Lost | Blocking(evt: Event)

  datatype Closer = NotStarted | CoreClosed | Flagged(waits: bool) | Finished

  /** Legs of the driver loop. `Gate` has seen `closing` clear; `Draining` has cleared the flag;
      `Polling` has drained the core; `Selecting` is blocked in `select!`. */
  datatype Driver = Top | Gate | Draining | Polling | Selecting | Handling(evt: Event) | Exited

  /** What happened so far, read by no step. */
  datatype History = History(
    accepted: seq<Message>,
    flushed: seq<Message>,
    clears: nat,
    wins: nat,
    notified: nat,
    coalesced: nat,
    yielded: nat,
    drains: nat,
    drainsAtClosing: nat)

  datatype State = State(
    dedicated: bool,
    core: seq<Message>,
    pending: bool,
    chan: seq<Event>,
    closing: bool,
    counter: nat,
    callers: map<nat, Caller>,
    closers: map<nat, Closer>,
    driver: Driver,
    past: History)

  datatype Action =
    | Enqueue(id: nat, tags: seq<nat>)
    | Swap(id: nat)
    | Poke(id: nat)
    | CountUp(id: nat)
    | EnqueueAwait(id: nat, tags: seq<nat>)
    | AwaitSend(id: nat)
    | Produce(tags: seq<nat>)
    | CloseCore(id: nat, tags: seq<nat>)
    | SetClosing(id: nat)
    | DropFlag(id: nat)
    | WakeToClose(id: nat)
    | AbortTask(id: nat)
    | CheckClosing
    | ClearPending
    | Drain
    | Poll(tags: seq<nat>, immediate: bool)
    | Receive
    | TimerOrSocket(tags: seq<nat>)
    | Handle(tags: seq<nat>)
    | Fail

  function CallerOf(s: State, id: nat): Caller {
    if id in s.callers then s.callers[id] else Idle
  }

  function CloserOf(s: State, id: nat): Closer {
    if id in s.closers then s.closers[id] else NotStarted
  }

  predicate Live(s: State) {
    s.driver != Exited
  }

  predicate HasRoom(s: State) {
    |s.chan| < CAPACITY
  }

  predicate IsDriver(a: Action) {
    a.CheckClosing? || a.ClearPending? || a.Drain? || a.Poll? || a.Receive? || a.TimerOrSocket? || a.Handle? || a.Fail?
  }

  /** Driver steps that wait for nothing outside the protocol: no timer, no socket, no error. */
  predicate IsUnaided(a: Action) {
    IsDriver(a) && !a.TimerOrSocket? && !a.Fail?
  }

  predicate Enabled(s: State, a: Action) {
    match a
    case Enqueue(id, _) => CallerOf(s, id) == Idle
    case Swap(id) => CallerOf(s, id) == Enqueued
    case Poke(id) => CallerOf(s, id) == Won
    case CountUp(id) => CallerOf(s, id) == Lost
    case EnqueueAwait(id, _) => CallerOf(s, id) == Idle
    // An awaited send completes when there is room, or fails once the receiver is gone.
    case AwaitSend(id) => CallerOf(s, id).Blocking? && (HasRoom(s) || !Live(s))
    case Produce(_) => true
    case CloseCore(id, _) => CloserOf(s, id) == NotStarted
    case SetClosing(id) => CloserOf(s, id) == CoreClosed
    case DropFlag(id) => CloserOf(s, id) == NotStarted && s.dedicated
    case WakeToClose(id) => CloserOf(s, id).Flagged? && (CloserOf(s, id).waits ==> HasRoom(s) || !Live(s))
    case AbortTask(id) => CloserOf(s, id) == Finished && !s.dedicated
    case CheckClosing => s.driver == Top
    case ClearPending => s.driver == Gate
    case Drain => s.driver == Draining
    case Poll(_, _) => s.driver == Polling
    case Receive => s.driver == Selecting && s.chan != []
    case TimerOrSocket(_) => s.driver == Selecting
    case Handle(_) => s.driver.Handling?
    case Fail => s.driver == Polling || s.driver == Selecting
  }

  function Tagged(origin: Origin, tags: seq<nat>): seq<Message> {
    seq(|tags|, i requires 0 <= i < |tags| => Message(origin, tags[i]))
  }

  function Put(s: State, origin: Origin, tags: seq<nat>): State {
    s.(core := s.core + Tagged(origin, tags), past := s.past.(accepted := s.past.accepted + Tagged(origin, tags)))
  }

  /** A non-blocking channel send: dropped when the channel is full or its receiver is gone. */
  function TrySend(s: State, e: Event): State {
    if Live(s) && HasRoom(s) then s.(chan := s.chan + [e]) else s
  }

  function RaiseClosing(s: State): State {
    if s.closing then s else s.(closing := true, past := s.past.(drainsAtClosing := s.past.drains))
  }

  function Apply(s: State, a: Action): State
    requires Enabled(s, a)
  {
    match a
    case Enqueue(id, tags) =>
      Put(s, Woken, tags).(callers := s.callers[id := Enqueued])
    case Swap(id) =>
      if s.pending then s.(callers := s.callers[id := Lost])
      else s.(pending := true, past := s.past.(wins := s.past.wins + 1), callers := s.callers[id := Won])
    case Poke(id) =>
      TrySend(s, WriteNotify).(
        past := s.past.(notified := s.past.notified + (if Live(s) && HasRoom(s) then 1 else 0)),
        callers := s.callers[id := Idle])
    case CountUp(id) =>
      s.(counter := (s.counter + 1) % USIZE,
         past := s.past.(
           coalesced := s.past.coalesced + 1,
           yielded := s.past.yielded + (if s.counter % YIELD_INTERVAL == YIELD_INTERVAL - 1 then 1 else 0)),
         callers := s.callers[id := Idle])
    case EnqueueAwait(id, tags) =>
      Put(s, Woken, tags).(callers := s.callers[id := Blocking(Other)])
    case AwaitSend(id) =>
      TrySend(s, CallerOf(s, id).evt).(callers := s.callers[id := Idle])
    case Produce(tags) =>
      Put(s, Unwoken, tags)
    case CloseCore(id, tags) =>
      Put(s, Farewell, tags).(closers := s.closers[id := CoreClosed])
    case SetClosing(id) =>
      RaiseClosing(s).(closers := s.closers[id := Flagged(true)])
    case DropFlag(id) =>
      RaiseClosing(s).(closers := s.closers[id := Flagged(false)])
    case WakeToClose(id) =>
      TrySend(s, Close).(closers := s.closers[id := Finished])
    case AbortTask(_) =>
      s.(driver := Exited)
    case CheckClosing =>
      s.(driver := if s.closing then Exited else Gate)
    case ClearPending =>
      s.(pending := false, past := s.past.(clears := s.past.clears + 1), driver := Draining)
    case Drain =>
      s.(core := [],
         past := s.past.(flushed := s.past.flushed + s.core, drains := s.past.drains + 1),
         driver := Polling)
    case Poll(tags, immediate) =>
      Put(s, Unwoken, tags).(driver := if immediate then Top else Selecting)
    case Receive =>
      s.(chan := s.chan[1..], driver := Handling(s.chan[0]))
    case TimerOrSocket(tags) =>
      Put(s, Unwoken, tags).(driver := Top)
    case Handle(tags) =>
      if s.driver.evt == Close then s.(driver := Exited)
      else Put(s, Unwoken, tags).(driver := Top)
    case Fail =>
      s.(driver := Exited)
  }

  function Init(dedicated: bool): State {
    State(dedicated, [], false, [], false, 0, map[], map[], Top, History([], [], 0, 0, 0, 0, 0, 0, 0))
  }

  predicate ValidRun(s: State, run: seq<Action>)
    decreases |run|
  {
    run == [] || (Enabled(s, run[0]) && ValidRun(Apply(s, run[0]), run[1..]))
  }

  function Exec(s: State, run: seq<Action>): State
    requires ValidRun(s, run)
    decreases |run|
  {
    if run == [] then s else Exec(Apply(s, run[0]), run[1..])
  }

  function DriverSteps(run: seq<Action>): nat {
    if run == [] then 0 else (if IsDriver(run[0]) then 1 else 0) + DriverSteps(run[1..])
  }

  // ---------------------------------------------------------------- invariants

  ghost predicate CallerAt(s: State, id: nat, c: Caller) {
    id in s.callers && s.callers[id] == c
  }

  ghost predicate BeforeSwap(s: State, id: nat) {
    id in s.callers && (s.callers[id] == Enqueued || s.callers[id].Blocking?)
  }

  /** Some caller has put output in the core and has not yet reached its swap or channel send. */
  ghost predicate SomeBeforeSwap(s: State) {
    exists id :: BeforeSwap(s, id)
  }

  ghost predicate SomeBeforePoke(s: State) {
    exists id :: CallerAt(s, id, Won)
  }

  ghost predicate CallersAtRest(s: State) {
    forall id :: id in s.callers ==> s.callers[id] == Idle
  }

  predicate HoldsWoken(s: State) {
    exists i :: 0 <= i < |s.core| && s.core[i].origin == Woken
  }

  predicate ClearedThisRound(s: State) {
    s.driver == Draining || s.driver == Polling || s.driver == Selecting
  }

  predicate PastDrain(s: State) {
    s.driver == Polling || s.driver == Selecting
  }

  /** Still to drain in the current iteration. */
  predicate DrainAhead(s: State) {
    s.driver == Gate || s.driver == Draining
  }

  ghost predicate CloserAt(s: State, id: nat, c: Closer) {
    id in s.closers && s.closers[id] == c
  }

  /** Some `close()` or `Drop` has set the flag and attempted its wake. */
  ghost predicate WakeAttempted(s: State) {
    exists id :: CloserAt(s, id, Finished)
  }

  /** A set flag after this iteration's clear is owed a wake that is queued or about to be. */
  ghost predicate FlagIsOwedAWake(s: State) {
    ClearedThisRound(s) && s.pending ==> s.chan != [] || SomeBeforePoke(s)
  }

  ghost predicate OutputIsCovered(s: State) {
    PastDrain(s) && HoldsWoken(s) ==> s.pending || s.chan != [] || SomeBeforeSwap(s)
  }

  predicate QueueConserved(s: State) {
    s.past.accepted == s.past.flushed + s.core
  }

  ghost predicate ClosingIsOwedAWake(s: State) {
    && (forall id :: id in s.closers && (s.closers[id].Flagged? || s.closers[id] == Finished) ==> s.closing)
    && (WakeAttempted(s) && (DrainAhead(s) || PastDrain(s)) ==> s.chan != [])
  }

  predicate DrainsBounded(s: State) {
    s.closing ==> s.past.drains + (if DrainAhead(s) then 1 else 0) <= s.past.drainsAtClosing + 1
  }

  ghost function Winners(callers: map<nat, Caller>): set<nat> {
    set id | id in callers && callers[id] == Won
  }

  ghost predicate WakesCounted(s: State) {
    && s.past.wins <= s.past.clears + (if s.pending then 1 else 0)
    && s.past.notified + |Winners(s.callers)| <= s.past.wins
  }

  predicate YieldsCounted(s: State) {
    s.counter == s.past.coalesced % USIZE && s.past.yielded == s.past.coalesced / YIELD_INTERVAL
  }

  ghost predicate Inv(s: State) {
    && |s.chan| <= CAPACITY
    && FlagIsOwedAWake(s)
    && OutputIsCovered(s)
    && QueueConserved(s)
    && ClosingIsOwedAWake(s)
    && DrainsBounded(s)
    && WakesCounted(s)
    && YieldsCounted(s)
  }

  lemma OwedWakeKept(s: State, a: Action)
    requires Enabled(s, a) && |s.chan| <= CAPACITY && FlagIsOwedAWake(s)
    ensures |Apply(s, a).chan| <= CAPACITY && FlagIsOwedAWake(Apply(s, a))
  {
    var t := Apply(s, a);
    if ClearedThisRound(t) && t.pending && t.chan == [] {
      if a.Swap? && !s.pending {
        assert CallerAt(t, a.id, Won);
      } else {
        var id :| CallerAt(s, id, Won);
        assert CallerAt(t, id, Won);
      }
    }
  }

  lemma CoverKept(s: State, a: Action)
    requires Enabled(s, a) && |s.chan| <= CAPACITY && OutputIsCovered(s)
    ensures OutputIsCovered(Apply(s, a))
  {
    var t := Apply(s, a);
    if PastDrain(t) && HoldsWoken(t) && !t.pending && t.chan == [] {
      var i :| 0 <= i < |t.core| && t.core[i].origin == Woken;
      if a.Enqueue? || a.EnqueueAwait? {
        assert BeforeSwap(t, a.id);
      } else {
        assert i < |s.core| && s.core[i] == t.core[i];
        var id :| BeforeSwap(s, id);
        assert BeforeSwap(t, id);
      }
    }
  }

  lemma ConservationKept(s: State, a: Action)
    requires Enabled(s, a) && QueueConserved(s)
    ensures QueueConserved(Apply(s, a))
  {
  }

  lemma DrainsKept(s: State, a: Action)
    requires Enabled(s, a) && DrainsBounded(s)
    ensures DrainsBounded(Apply(s, a))
  {
  }

  lemma ClosingKept(s: State, a: Action)
    requires Enabled(s, a) && |s.chan| <= CAPACITY && ClosingIsOwedAWake(s)
    ensures ClosingIsOwedAWake(Apply(s, a))
  {
    var t := Apply(s, a);
    if WakeAttempted(t) && (DrainAhead(t) || PastDrain(t)) && !a.WakeToClose? {
      var id :| CloserAt(t, id, Finished);
      assert CloserAt(s, id, Finished);
    }
  }

  lemma WinnersAfter(callers: map<nat, Caller>, id: nat, c: Caller)
    ensures |Winners(callers[id := c])| <= |Winners(callers)| + (if c == Won then 1 else 0)
    ensures id in callers && callers[id] == Won && c != Won ==>
              |Winners(callers[id := c])| == |Winners(callers)| - 1
  {
    assert Winners(callers[id := c]) == if c == Won then Winners(callers) + {id} else Winners(callers) - {id};
    SubsetCard(Winners(callers) - {id}, Winners(callers));
  }

  lemma SubsetCard(a: set<nat>, b: set<nat>)
    requires a <= b
    ensures |a| <= |b|
  {
    assert b == a + (b - a);
  }

  /** Steps of a caller: only a swap makes a winner, and only a winner notifies. */
  lemma CallerWakesKept(s: State, a: Action)
    requires Enabled(s, a) && WakesCounted(s)
    requires a.Enqueue? || a.CountUp? || a.EnqueueAwait? || a.AwaitSend?
    ensures WakesCounted(Apply(s, a))
  {
    WinnersAfter(s.callers, a.id, Apply(s, a).callers[a.id]);
  }

  lemma WakesKept(s: State, a: Action)
    requires Enabled(s, a) && WakesCounted(s)
    ensures WakesCounted(Apply(s, a))
  {
    if a.Enqueue? || a.CountUp? || a.EnqueueAwait? || a.AwaitSend? {
      CallerWakesKept(s, a);
    } else if a.Swap? {
      WinnersAfter(s.callers, a.id, if s.pending then Lost else Won);
    } else if a.Poke? {
      WinnersAfter(s.callers, a.id, Idle);
    }
  }

  lemma YieldsKept(s: State, a: Action)
    requires Enabled(s, a) && YieldsCounted(s)
    ensures YieldsCounted(Apply(s, a))
  {
    CounterStep(s.past.coalesced);
  }

  /** The yield interval divides the word size, so the wrapped counter and the exact count agree on
      which sends yield. */
  lemma CounterStep(n: nat)
    ensures (n % USIZE + 1) % USIZE == (n + 1) % USIZE
    ensures n % USIZE % YIELD_INTERVAL == n % YIELD_INTERVAL
    ensures (n + 1) / YIELD_INTERVAL == n / YIELD_INTERVAL + (if n % YIELD_INTERVAL == YIELD_INTERVAL - 1 then 1 else 0)
  {
    WrapStep(n);
    WrapKeepsInterval(n);
    IntervalStep(n);
  }

  lemma WrapStep(n: nat)
    ensures (n % USIZE + 1) % USIZE == (n + 1) % USIZE
  {
    ModPlus(n, 1, USIZE);
  }

  lemma IntervalStep(n: nat)
    ensures (n + 1) / YIELD_INTERVAL == n / YIELD_INTERVAL + (if n % YIELD_INTERVAL == YIELD_INTERVAL - 1 then 1 else 0)
  {
  }

  lemma WrapKeepsInterval(n: nat)
    ensures n % USIZE % YIELD_INTERVAL == n % YIELD_INTERVAL
  {
    var q, r := n / USIZE, n % USIZE;
    var k := r / YIELD_INTERVAL;
    assert n == (144115188075855872 * q + k) * YIELD_INTERVAL + r % YIELD_INTERVAL;
    ModUnique(n, 144115188075855872 * q + k, r % YIELD_INTERVAL, YIELD_INTERVAL);
  }

  lemma InitInv(dedicated: bool)
    ensures Inv(Init(dedicated))
  {
    assert Winners(map[]) == {};
  }

  lemma StepInv(s: State, a: Action)
    requires Inv(s) && Enabled(s, a)
    ensures Inv(Apply(s, a))
  {
    OwedWakeKept(s, a);
    CoverKept(s, a);
    ConservationKept(s, a);
    DrainsKept(s, a);
    ClosingKept(s, a);
    WakesKept(s, a);
    YieldsKept(s, a);
  }

  lemma {:induction false} RunInv(s: State, run: seq<Action>)
    requires Inv(s) && ValidRun(s, run)
    ensures Inv(Exec(s, run))
    decreases |run|
  {
    if run != [] {
      StepInv(s, run[0]);
      RunInv(Apply(s, run[0]), run[1..]);
    }
  }

  // ------------------------------------------------------- theorems over all runs

  /** No lost flush: whenever the driver is past its drain and output of a waking call is still
      in the core, a caller has yet to swap, send or poke, or an event is queued. */
  lemma NoLostFlush(dedicated: bool, run: seq<Action>)
    requires ValidRun(Init(dedicated), run)
    ensures var s := Exec(Init(dedicated), run);
            PastDrain(s) && HoldsWoken(s) ==> s.chan != [] || SomeBeforeSwap(s) || SomeBeforePoke(s)
  {
    InitInv(dedicated);
    RunInv(Init(dedicated), run);
  }

  /** Nothing is lost, repeated or reordered between the core and the sockets. */
  lemma FlushedExactlyOnceInOrder(dedicated: bool, run: seq<Action>)
    requires ValidRun(Init(dedicated), run)
    ensures var s := Exec(Init(dedicated), run); s.past.accepted == s.past.flushed + s.core
  {
    InitInv(dedicated);
    RunInv(Init(dedicated), run);
  }

  /** A driver at rest with every caller at rest holds only output that nobody woke it for. */
  lemma QuietDriverHoldsNoWokenOutput(dedicated: bool, run: seq<Action>)
    requires ValidRun(Init(dedicated), run)
    ensures var s := Exec(Init(dedicated), run);
            s.driver == Selecting && s.chan == [] && CallersAtRest(s) ==>
              forall i :: 0 <= i < |s.core| ==> s.core[i].origin != Woken
  {
    NoLostFlush(dedicated, run);
  }

  /** At most one `WriteNotify` per loop-top clear, plus one. */
  lemma WakesCoalesce(dedicated: bool, run: seq<Action>)
    requires ValidRun(Init(dedicated), run)
    ensures Exec(Init(dedicated), run).past.notified <= Exec(Init(dedicated), run).past.clears + 1
  {
    InitInv(dedicated);
    RunInv(Init(dedicated), run);
  }

  /** Yields are exactly every 128th coalesced send of the whole run, wrap-around included. */
  lemma YieldsEveryInterval(dedicated: bool, run: seq<Action>, more: seq<Action>)
    requires ValidRun(Init(dedicated), run)
    requires ValidRun(Exec(Init(dedicated), run), more)
    ensures var s, t := Exec(Init(dedicated), run), Exec(Exec(Init(dedicated), run), more);
            t.past.coalesced == s.past.coalesced + YIELD_INTERVAL ==> t.past.yielded == s.past.yielded + 1
  {
    InitInv(dedicated);
    RunInv(Init(dedicated), run);
    RunInv(Exec(Init(dedicated), run), more);
  }

  /** Shutdown is never stranded: after a wake attempt the driver is gone, or it is not blocked. */
  lemma ShutdownNeverStranded(dedicated: bool, run: seq<Action>)
    requires ValidRun(Init(dedicated), run)
    ensures var s := Exec(Init(dedicated), run);
            WakeAttempted(s) ==> s.closing && (s.driver == Selecting ==> s.chan != [])
  {
    InitInv(dedicated);
    RunInv(Init(dedicated), run);
  }

  /** At most one drain happens after the closing flag is set. */
  lemma AtMostOneDrainAfterClosing(dedicated: bool, run: seq<Action>)
    requires ValidRun(Init(dedicated), run)
    ensures var s := Exec(Init(dedicated), run); s.closing ==> s.past.drains <= s.past.drainsAtClosing + 1
  {
    InitInv(dedicated);
    RunInv(Init(dedicated), run);
  }
}
