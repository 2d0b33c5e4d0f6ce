/** What commands mean, and that the player's requests are exactly what the commands it heard mean. */
module PlayerCommands {
  import opened Options
  import opened Seqs
  import opened Text
  import opened PlaylistMessage
  import opened Player

  // ------------------------------------------------------------------- numbers

  lemma {:induction false} DecimalLength(n: nat)
    ensures |Decimal(n)| > 0 && '0' <= Decimal(n)[0] <= '9'
  {
  }

  /** Signed decimal text is the number, when it fits 32 bits, and nothing otherwise. */
  lemma SignedNumbers(n: nat)
    ensures ParseI32(Decimal(n)) == (if n <= I32_MAX then Some(n) else None)
    ensures ParseI32("+" + Decimal(n)) == (if n <= I32_MAX then Some(n) else None)
    ensures ParseI32("-" + Decimal(n)) == (if n <= -I32_MIN then Some(-(n as int)) else None)
  {
    DecimalRoundTrip(n);
    DecimalLength(n);
    assert ("+" + Decimal(n))[1..] == Decimal(n) && ("-" + Decimal(n))[1..] == Decimal(n);
  }

  // ------------------------------------------------------------------- meaning

  /** The track a number given by the page stands for: counted from one, and the nearest if there is none. */
  function NumberedTrack(k: int, limit: nat): int
    requires limit > 0
  {
    if k < 1 then 0 else if k > limit then limit - 1 else k - 1
  }

  function TrackAfter(current: nat, limit: nat): int {
    if current + 1 == limit then 0 else current + 1
  }

  function TrackBefore(current: nat, limit: nat): int {
    if current == 0 then limit - 1 else current - 1
  }

  /** The track a command text asks for while `current` plays; `None` if it asks for none. A number whose
      predecessor overflows kills the task in a checked build and wraps to the last track otherwise. */
  function Asks(text: string, current: nat, limit: nat, checked: bool): Option<int>
    requires current < limit
  {
    if text in ["next", "n", "forward"] then Some(TrackAfter(current, limit))
    else if text in ["prev", "previous", "p", "back"] then Some(TrackBefore(current, limit))
    else if text == "list" then None
    else
      match ParseI32(text)
      case None => None
      case Some(k) =>
        if k == I32_MIN then (if checked then None else Some(limit - 1)) else Some(NumberedTrack(k, limit))
  }

  /** What a command makes the player request: nothing if that track plays already. */
  function Requests(h: Heard, limit: nat, checked: bool): seq<int> {
    if !(0 <= h.current < limit) then []
    else
      var track := Asks(h.text, h.current, limit, checked);
      if track.None? || track.value == h.current then [] else [track.value]
  }

  /** The command task decides as the text means. */
  lemma DecidesAsMeant(text: string, current: nat, limit: nat, checked: bool)
    requires current < limit <= I32_MAX
    ensures var wanted := Wanted(ParseCommand(text), current, limit, checked);
      var asks := Asks(text, current, limit, checked);
      if wanted.None? || wanted.value < 0 then asks.None? else asks == Some(wanted.value)
  {
    WordsMatch(text);
    var command := ParseCommand(text);
    match command {
      case Number(k) =>
        assert ParseI32(text) == Some(k);
      case _ =>
    }
  }

  lemma WordsMatch(text: string)
    ensures SaysNext(text) <==> text in ["next", "n", "forward"]
    ensures SaysPrev(text) <==> text in ["prev", "previous", "p", "back"]
  {
  }

  // ---------------------------------------------------------------- whole runs

  function AllRequests(heard: seq<Heard>, limit: nat, checked: bool): seq<int> {
    if heard == [] then []
    else AllRequests(heard[..|heard| - 1], limit, checked) + Requests(heard[|heard| - 1], limit, checked)
  }

  /** The requests that were logged. */
  function Requested(log: seq<Event>): seq<int> {
    if log == [] then []
    else
      var e := log[|log| - 1];
      Requested(log[..|log| - 1]) + if e.Requested? then [e.track] else []
  }

  /** The request the command task is about to make. */
  function Owed(s: State): seq<int> {
    match s.commander
    case Loaded(_, _) => if s.heard == [] then [] else Requests(s.heard[|s.heard| - 1], |s.lens|, s.checked)
    case Storing(track) => [track]
    case _ => []
  }

  predicate LoadedIsHeard(s: State) {
    s.commander.Loaded? ==>
      s.heard != [] && var h := s.heard[|s.heard| - 1];
      s.commander == Loaded(ParseCommand(h.text), h.current) && 0 <= h.current < |s.lens|
  }

  predicate Honest(s: State) {
    LoadedIsHeard(s) && Requested(s.log) + Owed(s) == AllRequests(s.heard, |s.lens|, s.checked)
  }

  lemma RequestedSnoc(log: seq<Event>, e: Event)
    ensures Requested(log + [e]) == Requested(log) + if e.Requested? then [e.track] else []
  {
    assert (log + [e])[..|log|] == log;
  }

  lemma AllRequestsSnoc(heard: seq<Heard>, h: Heard, limit: nat, checked: bool)
    ensures AllRequests(heard + [h], limit, checked) == AllRequests(heard, limit, checked) + Requests(h, limit, checked)
  {
    assert (heard + [h])[..|heard|] == heard;
  }

  lemma DecideHonest(s: State)
    requires Ranges(s) && Honest(s) && Enabled(s, Decide)
    ensures Honest(Apply(s, Decide))
  {
    var h := s.heard[|s.heard| - 1];
    DecidesAsMeant(h.text, h.current, |s.lens|, s.checked);
    assert Owed(Apply(s, Decide)) == Owed(s);
  }

  lemma ReceiveHonest(s: State, text: string)
    requires Ranges(s) && Honest(s) && Enabled(s, Receive(text))
    ensures Honest(Apply(s, Receive(text)))
  {
    AllRequestsSnoc(s.heard, Heard(text, s.current), |s.lens|, s.checked);
  }

  lemma StoreHonest(s: State)
    requires Ranges(s) && Honest(s) && Enabled(s, StoreSwitch)
    ensures Honest(Apply(s, StoreSwitch))
  {
    RequestedSnoc(s.log, Event.Requested(s.commander.track));
    assert Owed(s) == [s.commander.track];
    assert Requested(s.log) + [s.commander.track] + [] == Requested(s.log) + [s.commander.track];
  }

  /** A step that leaves the command task alone and logs at most an event that is no request. */
  predicate Aside(s: State, t: State) {
    && t.commander == s.commander && t.heard == s.heard && t.lens == s.lens && t.checked == s.checked
    && (t.log == s.log || (t.log != [] && t.log[..|t.log| - 1] == s.log && !t.log[|t.log| - 1].Requested?))
  }

  lemma StreamAside(s: State, a: Action)
    requires Ranges(s) && Enabled(s, a) && !a.Decide? && !a.Receive? && !a.StoreSwitch?
    ensures Aside(s, Apply(s, a))
  {
  }

  lemma AsideHonest(s: State, t: State)
    requires Honest(s) && Aside(s, t)
    ensures Honest(t)
  {
    assert Requested(t.log) == Requested(s.log) + [] == Requested(s.log);
  }

  lemma StepHonest(s: State, a: Action)
    requires Ranges(s) && Honest(s) && Enabled(s, a)
    ensures Honest(Apply(s, a))
  {
    match a {
      case Decide => DecideHonest(s);
      case Receive(text) => ReceiveHonest(s, text);
      case StoreSwitch => StoreHonest(s);
      case _ =>
        StreamAside(s, a);
        AsideHonest(s, Apply(s, a));
    }
  }

  lemma {:induction false} RunHonest(s: State, run: seq<Action>)
    requires Ranges(s) && Honest(s) && ValidRun(s, run)
    ensures Honest(Exec(s, run)) && Exec(s, run).lens == s.lens && Exec(s, run).checked == s.checked
    decreases |run|
  {
    if run != [] {
      StepHonest(s, run[0]);
      RangesKept(s, run[0]);
      RunHonest(Apply(s, run[0]), run[1..]);
    }
  }

  /** The commands received in a run, each with the track that played then. */
  function HeardIn(s: State, run: seq<Action>): seq<Heard>
    requires Ranges(s) && ValidRun(s, run)
    decreases |run|
  {
    if run == [] then []
    else
      RangesKept(s, run[0]);
      (if run[0].Receive? then [Heard(run[0].text, s.current)] else []) + HeardIn(Apply(s, run[0]), run[1..])
  }

  lemma {:induction false} HeardIsReceived(s: State, run: seq<Action>)
    requires Ranges(s) && ValidRun(s, run)
    ensures Exec(s, run).heard == s.heard + HeardIn(s, run)
    decreases |run|
  {
    if run != [] {
      RangesKept(s, run[0]);
      var t := Apply(s, run[0]);
      HeardIsReceived(t, run[1..]);
      Regroup(s.heard, if run[0].Receive? then [Heard(run[0].text, s.current)] else [], HeardIn(t, run[1..]));
      assert s.heard + [] == s.heard;
    }
  }

  /**
   * Over every interleaving the requests made, and the one the command task is about to make, are in order
   * exactly the tracks the commands received mean: none for a command that asks for nothing or for the
   * track that plays.
   */
  lemma RequestsAreMeant(lens: seq<nat>, checked: bool, run: seq<Action>)
    requires Playable(lens) && ValidRun(Init(lens, checked), run)
    ensures var s := Exec(Init(lens, checked), run);
      Requested(s.log) + Owed(s) == AllRequests(HeardIn(Init(lens, checked), run), |lens|, checked)
  {
    RunHonest(Init(lens, checked), run);
    HeardIsReceived(Init(lens, checked), run);
    assert [] + HeardIn(Init(lens, checked), run) == HeardIn(Init(lens, checked), run);
  }

  /** With the command task waiting for the next command nothing is owed. */
  lemma WaitingOwesNothing(lens: seq<nat>, checked: bool, run: seq<Action>)
    requires Playable(lens) && ValidRun(Init(lens, checked), run)
    requires Exec(Init(lens, checked), run).commander == Waiting
    ensures Requested(Exec(Init(lens, checked), run).log)
         == AllRequests(HeardIn(Init(lens, checked), run), |lens|, checked)
  {
    RequestsAreMeant(lens, checked, run);
    var s := Exec(Init(lens, checked), run);
    assert Requested(s.log) + [] == Requested(s.log);
  }

  // ------------------------------------------------------------- tasks that end

  predicate OfStream(a: Action) {
    a.LoadCurrent? || a.StoreNext? || a.WritePage? || a.SwapSwitch? || a.ApplySwitch?
  }

  lemma {:induction false} FailedStays(s: State, run: seq<Action>)
    requires Ranges(s) && s.stream.Failed? && ValidRun(s, run)
    ensures forall i :: 0 <= i < |run| ==> !OfStream(run[i])
    decreases |run|
  {
    if run != [] {
      RangesKept(s, run[0]);
      FailedStays(Apply(s, run[0]), run[1..]);
    }
  }

  /** A write that fails ends the streaming task. */
  lemma FailedWriteEndsStream(s: State, more: seq<Action>)
    requires Ranges(s) && ValidRun(s, [WritePage(false)] + more)
    ensures forall i :: 0 <= i < |more| ==> !OfStream(more[i])
  {
    assert ([WritePage(false)] + more)[1..] == more;
    RangesKept(s, WritePage(false));
    FailedStays(Apply(s, WritePage(false)), more);
  }

  /** The command task has met the least number and has panicked or is about to. */
  predicate Doomed(s: State) {
    s.checked && (s.commander.Panicked? || (s.commander.Loaded? && s.commander.command == Number(I32_MIN)))
  }

  lemma {:induction false} DoomedStays(s: State, run: seq<Action>)
    requires Ranges(s) && Doomed(s) && ValidRun(s, run)
    ensures forall i :: 0 <= i < |run| ==> !run[i].Receive? && !run[i].StoreSwitch?
    decreases |run|
  {
    if run != [] {
      RangesKept(s, run[0]);
      DoomedStays(Apply(s, run[0]), run[1..]);
    }
  }

  /** In a checked build the least 32-bit number is the last command ever heard, and asks for nothing. */
  lemma LeastNumberIsLast(s: State, text: string, more: seq<Action>)
    requires Ranges(s) && s.checked && ParseCommand(text) == Number(I32_MIN)
    requires ValidRun(s, [Receive(text)] + more)
    ensures forall i :: 0 <= i < |more| ==> !more[i].Receive? && !more[i].StoreSwitch?
  {
    assert ([Receive(text)] + more)[1..] == more;
    RangesKept(s, Receive(text));
    DoomedStays(Apply(s, Receive(text)), more);
  }
}
