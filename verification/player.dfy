/** The playlist player: a streaming task and a command task that share two atomics. */
module Player {
  import opened Options
  import opened Modular
  import opened Text
  import opened PlaylistMessage
  import Demux

  const I32_MIN: int := -0x8000_0000

  // ------------------------------------------------------------------ commands

  datatype Command = Next | Prev | List | Number(value: int) | Unknown

  /** Decimal text with an optional sign, when it fits 32 bits. */
  function ParseI32(s: string): (r: Option<int>)
    ensures r.Some? ==> I32_MIN <= r.value <= I32_MAX
  {
    var digits := if s != [] && (s[0] == '+' || s[0] == '-') then s[1..] else s;
    if digits == [] || !IsDigits(digits) then None
    else
      var v: int := if s[0] == '-' then -(DecimalValue(digits) as int) else DecimalValue(digits);
      if I32_MIN <= v <= I32_MAX then Some(v) else None
  }

  predicate SaysNext(s: string) {
    s == "next" || s == "n" || s == "forward"
  }

  predicate SaysPrev(s: string) {
    s == "prev" || s == "previous" || s == "p" || s == "back"
  }

  function ParseCommand(command: string): Command {
    if SaysNext(command) then Next
    else if SaysPrev(command) then Prev
    else if command == "list" then List
    else
      var n := ParseI32(command);
      if n.Some? then Number(n.value) else Unknown
  }

  /** The remainder with the sign of the dividend. */
  function Remainder(a: int, b: int): int
    requires b > 0
  {
    if a >= 0 then a % b else -((-a) % b)
  }

  function WrapNext(current: int, limit: nat): (r: int)
    ensures 0 <= current < limit ==> 0 <= r < limit && (r == current + 1 || (r == 0 && current == limit - 1))
  {
    if limit == 0 then 0 else Remainder(current + 1, limit)
  }

  function WrapPrev(current: int, limit: nat): (r: int)
    ensures 0 <= current < limit ==> 0 <= r < limit && WrapNext(r, limit) == current
  {
    if limit == 0 then 0 else if current == 0 then limit - 1 else current - 1
  }

  /** The track a command asks for, or -1; `None` when the subtraction overflows and panics. */
  function Wanted(command: Command, current: int, limit: int, checked: bool): (r: Option<int>)
    requires 0 <= current < limit <= I32_MAX
    requires command.Number? ==> I32_MIN <= command.value <= I32_MAX
    ensures r.None? <==> command == Number(I32_MIN) && checked
    ensures r.Some? ==> -1 <= r.value < limit
  {
    match command
    case Next => Some(WrapNext(current, limit))
    case Prev => Some(WrapPrev(current, limit))
    case List => Some(-1)
    case Unknown => Some(-1)
    case Number(n) =>
      if n == I32_MIN then if checked then None else Some(NormalizeIndex(I32_MAX, limit))
      else Some(NormalizeIndex(n - 1, limit))
  }

  /** The page numbers tracks from one; numbers outside go to the nearest end; going back undoes going on. */
  lemma CommandsMean(current: int, limit: int, checked: bool, k: int)
    requires 0 <= current < limit <= I32_MAX && I32_MIN < k <= I32_MAX
    ensures var next := Wanted(Next, current, limit, checked);
      && next.Some?
      && 0 <= next.value
      && Wanted(Prev, next.value, limit, checked) == Some(current)
      && (current < limit - 1 ==> next.value == current + 1)
    ensures 1 <= k <= limit ==> Wanted(Number(k), current, limit, checked) == Some(k - 1)
    ensures k < 1 ==> Wanted(Number(k), current, limit, checked) == Some(0)
    ensures k > limit ==> Wanted(Number(k), current, limit, checked) == Some(limit - 1)
    ensures Wanted(List, current, limit, checked) == Wanted(Unknown, current, limit, checked) == Some(-1)
  {
  }

  /** A track number in decimal is understood as that number. */
  lemma NumberCommand(n: nat)
    requires n <= I32_MAX
    ensures ParseCommand(Decimal(n)) == Number(n)
  {
    DecimalRoundTrip(n);
    NumeralIsNoWord(Decimal(n));
    NumeralParsed(Decimal(n));
  }

  lemma NumeralIsNoWord(s: string)
    requires s != [] && '0' <= s[0] <= '9'
    ensures !SaysNext(s) && !SaysPrev(s) && s != "list"
  {
  }

  lemma NumeralParsed(s: string)
    requires s != [] && IsDigits(s) && DecimalValue(s) <= I32_MAX
    ensures ParseI32(s) == Some(DecimalValue(s))
  {
    assert '0' <= s[0] <= '9';
  }

  // ----------------------------------------------------------- the two tasks

  datatype Pos = Pos(track: nat, page: nat)

  /** What happened, in the order of the atomic accesses. */
  datatype Event = Sent(pos: Pos) | Skipped | Requested(track: nat) | Taken(track: nat)

  /** Where the streaming task is in its loop. */
  datatype Stream =
    | Top
    | Advancing(track: nat)      // past the last page: about to store the next track
    | Writing(track: nat)        // about to write a page
    | Swapping                   // about to take the switch
    | Applying(switch: int)      // about to act on it
    | Failed                     // a write failed

  /** Where the command task is in `handle_playlist_command`. */
  datatype Commander = Waiting | Loaded(command: Command, current: int) | Storing(track: nat) | Panicked

  datatype Heard = Heard(text: string, current: int)

  datatype State = State(
    lens: seq<nat>, checked: bool,
    current: int, switch: int, pageIdx: nat,
    stream: Stream, commander: Commander,
    // History: what happened, and the commands with the index each was read against.
    log: seq<Event>, heard: seq<Heard>)

  datatype Action =
    | LoadCurrent | StoreNext | WritePage(ok: bool) | SwapSwitch | ApplySwitch
    | Receive(text: string) | Decide | StoreSwitch

  /** What `parse_playlist` gives the player: at least one track, none without pages. */
  predicate Playable(lens: seq<nat>) {
    lens != [] && |lens| <= I32_MAX && forall i :: 0 <= i < |lens| ==> lens[i] > 0
  }

  function Init(lens: seq<nat>, checked: bool): State {
    State(lens, checked, 0, -1, 0, Top, Waiting, [], [])
  }

  predicate Ranges(s: State) {
    && Playable(s.lens)
    && 0 <= s.current < |s.lens|
    && -1 <= s.switch < |s.lens|
    && s.pageIdx <= s.lens[s.current]
    && StreamFits(s.stream, s.current, s.pageIdx, s.lens)
    && CommanderFits(s.commander, |s.lens|)
  }

  predicate StreamFits(p: Stream, current: int, pageIdx: nat, lens: seq<nat>)
    requires 0 <= current < |lens|
  {
    match p
    case Top => true
    case Advancing(track) => track == current && pageIdx == lens[current]
    case Writing(track) => track == current && pageIdx < lens[current]
    case Swapping => pageIdx < lens[current]
    case Applying(switch) => pageIdx < lens[current] && -1 <= switch < |lens|
    case Failed => true
  }

  predicate CommanderFits(c: Commander, limit: nat) {
    match c
    case Loaded(command, current) =>
      0 <= current < limit && (command.Number? ==> I32_MIN <= command.value <= I32_MAX)
    case Storing(track) => track < limit
    case _ => true
  }

  predicate Enabled(s: State, a: Action)
  {
    match a
    case LoadCurrent => s.stream.Top?
    case StoreNext => s.stream.Advancing?
    case WritePage(_) => s.stream.Writing?
    case SwapSwitch => s.stream.Swapping?
    case ApplySwitch => s.stream.Applying?
    case Receive(_) => s.commander.Waiting?
    case Decide => s.commander.Loaded?
    case StoreSwitch => s.commander.Storing?
  }

  function Apply(s: State, a: Action): State
    requires Ranges(s) && Enabled(s, a)
  {
    match a
    case LoadCurrent =>
      var track := NormalizeIndex(s.current, |s.lens|);
      s.(stream := if s.pageIdx >= s.lens[track] then Advancing(track) else Writing(track))
    case StoreNext =>
      s.(current := WrapNext(s.stream.track, |s.lens|), pageIdx := 0, stream := Top, log := s.log + [Skipped])
    case WritePage(ok) =>
      if ok then s.(stream := Swapping, log := s.log + [Sent(Pos(s.stream.track, s.pageIdx))]) else s.(stream := Failed)
    case SwapSwitch =>
      s.(switch := -1, stream := Applying(s.switch),
        log := if s.switch >= 0 then s.log + [Taken(s.switch)] else s.log)
    case ApplySwitch =>
      if 0 <= s.stream.switch < |s.lens| then s.(current := s.stream.switch, pageIdx := 0, stream := Top)
      else s.(pageIdx := s.pageIdx + 1, stream := Top)
    case Receive(text) =>
      s.(commander := Loaded(ParseCommand(text), s.current), heard := s.heard + [Heard(text, s.current)])
    case Decide =>
      var wanted := Wanted(s.commander.command, s.commander.current, |s.lens|, s.checked);
      s.(commander :=
        if wanted.None? then Panicked
        else if wanted.value < 0 || wanted.value == s.commander.current then Waiting
        else Storing(wanted.value))
    case StoreSwitch =>
      s.(switch := s.commander.track, commander := Waiting, log := s.log + [Requested(s.commander.track)])
  }

  lemma RangesKept(s: State, a: Action)
    requires Ranges(s) && Enabled(s, a)
    ensures Ranges(Apply(s, a))
  {
  }

  predicate ValidRun(s: State, run: seq<Action>)
    requires Ranges(s)
    decreases |run|
  {
    run == [] || (Enabled(s, run[0]) && (RangesKept(s, run[0]); ValidRun(Apply(s, run[0]), run[1..])))
  }

  function Exec(s: State, run: seq<Action>): (t: State)
    requires Ranges(s) && ValidRun(s, run)
    ensures Ranges(t)
    decreases |run|
  {
    if run == [] then s else RangesKept(s, run[0]); Exec(Apply(s, run[0]), run[1..])
  }

  // ------------------------------------------------ the player seen from outside

  function NextPos(lens: seq<nat>, p: Pos): (q: Pos)
    requires Playable(lens) && OnPage(lens, p)
    ensures OnPage(lens, q)
  {
    if p.page + 1 < lens[p.track] then Pos(p.track, p.page + 1) else Pos(WrapNext(p.track, |lens|), 0)
  }

  predicate OnPage(lens: seq<nat>, p: Pos) {
    p.track < |lens| && p.page < lens[p.track]
  }

  /**
   * One task with no races: the page due next, the request not yet taken (-1 for none), how many
   * pages went out since that request, and how many idle iterations since the last page.
   */
  datatype Schedule = Schedule(due: Pos, pending: int, late: nat, idle: nat)

  const START: Schedule := Schedule(Pos(0, 0), -1, 0, 0)

  predicate Fits(lens: seq<nat>, v: Schedule) {
    Playable(lens) && OnPage(lens, v.due) && -1 <= v.pending < |lens|
  }

  /** The events the view lets happen next. */
  predicate Allowed(lens: seq<nat>, v: Schedule, e: Event) {
    match e
    case Sent(p) => p == v.due && v.late == 0
    case Skipped => v.idle == 0
    case Requested(track) => track < |lens|
    case Taken(track) => track == v.pending
  }

  function After(lens: seq<nat>, v: Schedule, e: Event): (w: Schedule)
    requires Fits(lens, v) && Allowed(lens, v, e)
    ensures Fits(lens, w)
  {
    match e
    case Sent(p) => Schedule(NextPos(lens, v.due), v.pending, if v.pending >= 0 then v.late + 1 else 0, 0)
    case Skipped => v.(idle := v.idle + 1)
    case Requested(track) => v.(pending := track, late := if v.pending >= 0 then v.late else 0)
    case Taken(track) => v.(due := Pos(track, 0), pending := -1, late := 0)
  }

  predicate Accepts(lens: seq<nat>, v: Schedule, log: seq<Event>)
    requires Fits(lens, v)
    decreases |log|
  {
    log == [] || (Allowed(lens, v, log[0]) && Accepts(lens, After(lens, v, log[0]), log[1..]))
  }

  function Final(lens: seq<nat>, v: Schedule, log: seq<Event>): (w: Schedule)
    requires Fits(lens, v) && Accepts(lens, v, log)
    ensures Fits(lens, w)
    decreases |log|
  {
    if log == [] then v else Final(lens, After(lens, v, log[0]), log[1..])
  }

  lemma {:induction false} AcceptsAppend(lens: seq<nat>, v: Schedule, a: seq<Event>, b: seq<Event>)
    requires Fits(lens, v)
    ensures Accepts(lens, v, a + b) <==> Accepts(lens, v, a) && Accepts(lens, Final(lens, v, a), b)
    ensures Accepts(lens, v, a + b) ==> Final(lens, v, a + b) == Final(lens, Final(lens, v, a), b)
    decreases |a|
  {
    if a == [] {
      assert a + b == b;
    } else {
      assert (a + b)[1..] == a[1..] + b;
      if Allowed(lens, v, a[0]) {
        AcceptsAppend(lens, After(lens, v, a[0]), a[1..], b);
      }
    }
  }

  lemma AcceptsSnoc(lens: seq<nat>, v: Schedule, log: seq<Event>, e: Event)
    requires Fits(lens, v) && Accepts(lens, v, log) && Allowed(lens, Final(lens, v, log), e)
    ensures Accepts(lens, v, log + [e]) && Final(lens, v, log + [e]) == After(lens, Final(lens, v, log), e)
  {
    AcceptsAppend(lens, v, log, [e]);
    var w := Final(lens, v, log);
    assert [e][1..] == [];
    assert Accepts(lens, w, [e]) && Final(lens, w, [e]) == After(lens, w, e);
  }

  /** The page that goes out next unless a request is taken first. */
  function Due(s: State): Pos
    requires Ranges(s)
  {
    var here, next := Pos(s.current, s.pageIdx), Pos(WrapNext(s.current, |s.lens|), 0);
    match s.stream
    case Applying(switch) =>
      if switch >= 0 then Pos(switch, 0)
      else if s.pageIdx + 1 < s.lens[s.current] then Pos(s.current, s.pageIdx + 1) else next
    case Swapping => if s.pageIdx + 1 < s.lens[s.current] then Pos(s.current, s.pageIdx + 1) else next
    case _ => if s.pageIdx < s.lens[s.current] then here else next
  }

  predicate Matches(s: State, v: Schedule)
    requires Ranges(s)
  {
    && v.due == Due(s)
    && v.pending == s.switch
    && v.late <= (if s.stream.Swapping? && s.switch >= 0 then 1 else 0)
    && (v.idle == 0 ||
        (v.idle == 1 && s.pageIdx < s.lens[s.current] && (s.stream.Top? || s.stream.Writing? || s.stream.Failed?)))
  }

  predicate Refined(s: State) {
    && Ranges(s)
    && Fits(s.lens, START)
    && Accepts(s.lens, START, s.log)
    && Matches(s, Final(s.lens, START, s.log))
  }

  /** A step logs nothing, or one event the schedule allows. */
  lemma StepMatches(s: State, a: Action, v: Schedule)
    requires Ranges(s) && Enabled(s, a) && Fits(s.lens, v) && Matches(s, v)
    ensures var t := Apply(s, a);
      && t.lens == s.lens
      && Ranges(t)
      && s.log <= t.log
      && (t.log == s.log ==> Matches(t, v))
      && (t.log != s.log ==>
            && t.log == s.log + [t.log[|s.log|]]
            && Allowed(s.lens, v, t.log[|s.log|])
            && Matches(t, After(s.lens, v, t.log[|s.log|])))
  {
    RangesKept(s, a);
  }

  lemma StepRefines(s: State, a: Action)
    requires Refined(s) && Enabled(s, a)
    ensures Refined(Apply(s, a))
  {
    StepMatches(s, a, Final(s.lens, START, s.log));
    if Apply(s, a).log != s.log {
      AcceptsSnoc(s.lens, START, s.log, Apply(s, a).log[|s.log|]);
    }
  }

  lemma {:induction false} RunRefines(s: State, run: seq<Action>)
    requires Refined(s) && ValidRun(s, run)
    ensures Refined(Exec(s, run)) && Exec(s, run).lens == s.lens
    decreases |run|
  {
    if run != [] {
      StepRefines(s, run[0]);
      RunRefines(Apply(s, run[0]), run[1..]);
    }
  }

  /**
   * Every interleaving of the two tasks, with any commands, is a run of the race-free player: the
   * track and every taken switch stay in range, a request is taken after at most one more page,
   * and no two iterations in a row send nothing.
   */
  lemma PlayerRefines(lens: seq<nat>, checked: bool, run: seq<Action>)
    requires Playable(lens) && ValidRun(Init(lens, checked), run)
    ensures var s := Exec(Init(lens, checked), run);
      && s.lens == lens
      && 0 <= s.current < |lens|
      && -1 <= s.switch < |lens|
      && Fits(lens, START)
      && Accepts(lens, START, s.log)
  {
    RunRefines(Init(lens, checked), run);
  }

  // ------------------------------------------------ what the race-free player plays

  /** All pages of the first `n` tracks, one track after the other. */
  function Pages(lens: seq<nat>, n: nat): seq<Pos>
    requires n <= |lens|
  {
    if n == 0 then [] else Pages(lens, n - 1) + seq(lens[n - 1], p requires 0 <= p => Pos(n - 1, p))
  }

  function Playlist(lens: seq<nat>): seq<Pos> {
    Pages(lens, |lens|)
  }

  function Flat(lens: seq<nat>, p: Pos): nat
    requires OnPage(lens, p)
  {
    |Pages(lens, p.track)| + p.page
  }

  lemma {:induction false} FlatWithin(lens: seq<nat>, p: Pos, n: nat)
    requires OnPage(lens, p) && p.track < n <= |lens|
    ensures Flat(lens, p) < |Pages(lens, n)| && Pages(lens, n)[Flat(lens, p)] == p
    decreases n
  {
    if p.track < n - 1 {
      FlatWithin(lens, p, n - 1);
    }
  }

  /** The page after a page is its successor in the playlist, the first one after the last. */
  lemma NextInPlaylist(lens: seq<nat>, p: Pos)
    requires Playable(lens) && OnPage(lens, p)
    ensures Flat(lens, p) < |Playlist(lens)|
    ensures Flat(lens, NextPos(lens, p)) == if Flat(lens, p) + 1 == |Playlist(lens)| then 0 else Flat(lens, p) + 1
  {
    FlatWithin(lens, p, |lens|);
    FlatWithin(lens, NextPos(lens, p), |lens|);
    if p.page + 1 == lens[p.track] {
      assert |Pages(lens, p.track + 1)| == |Pages(lens, p.track)| + lens[p.track];
    }
  }

  /** The pages sent, in order. */
  function SentPages(log: seq<Event>): seq<Pos> {
    if log == [] then []
    else (if log[0].Sent? then [log[0].pos] else []) + SentPages(log[1..])
  }

  predicate NoSwitch(log: seq<Event>) {
    forall i :: 0 <= i < |log| ==> !log[i].Taken?
  }

  lemma ModStep(x: nat, k: nat, m: nat)
    requires x < m
    ensures ((if x + 1 == m then 0 else x + 1) + k) % m == (x + 1 + k) % m
  {
    ModUnique(x + 1, if x + 1 == m then 1 else 0, if x + 1 == m then 0 else x + 1, m);
    ModPlus(x + 1, k, m);
  }

  /** The `k`-th page of the playlist read cyclically from `p`. */
  function FromPage(lens: seq<nat>, p: Pos, k: nat): Pos
    requires Playable(lens) && OnPage(lens, p)
  {
    FlatWithin(lens, p, |lens|);
    Playlist(lens)[(Flat(lens, p) + k) % |Playlist(lens)|]
  }

  lemma FromPageStep(lens: seq<nat>, p: Pos, k: nat)
    requires Playable(lens) && OnPage(lens, p)
    ensures FromPage(lens, p, 0) == p
    ensures FromPage(lens, NextPos(lens, p), k) == FromPage(lens, p, k + 1)
  {
    FlatWithin(lens, p, |lens|);
    NextInPlaylist(lens, p);
    var total := |Playlist(lens)|;
    ModUnique(Flat(lens, p), 0, Flat(lens, p), total);
    ModStep(Flat(lens, p), k, total);
  }

  /** Without a switch the pages sent are the playlist read cyclically from the page due. */
  lemma {:induction false} CyclicOrder(lens: seq<nat>, v: Schedule, log: seq<Event>, k: nat)
    requires Fits(lens, v) && Accepts(lens, v, log) && NoSwitch(log) && k < |SentPages(log)|
    ensures SentPages(log)[k] == FromPage(lens, v.due, k)
    decreases |log|
  {
    var w, rest := After(lens, v, log[0]), log[1..];
    if !log[0].Sent? {
      CyclicOrder(lens, w, rest, k);
    } else if k > 0 {
      CyclicOrder(lens, w, rest, k - 1);
      FromPageStep(lens, v.due, k - 1);
    } else {
      FromPageStep(lens, v.due, 0);
    }
  }

  /** Where the player stands after the first `i` events. */
  function At(lens: seq<nat>, log: seq<Event>, i: nat): (v: Schedule)
    requires Fits(lens, START) && Accepts(lens, START, log) && i <= |log|
    ensures Fits(lens, v) && Accepts(lens, v, log[i..])
  {
    AcceptsAppend(lens, START, log[..i], log[i..]);
    assert log[..i] + log[i..] == log;
    Final(lens, START, log[..i])
  }

  lemma AtNext(lens: seq<nat>, log: seq<Event>, i: nat)
    requires Fits(lens, START) && Accepts(lens, START, log) && i < |log|
    ensures Allowed(lens, At(lens, log, i), log[i])
    ensures At(lens, log, i + 1) == After(lens, At(lens, log, i), log[i])
  {
    AcceptsAppend(lens, START, log[..i], log[i..]);
    assert log[..i] + log[i..] == log;
    assert log[i..][0] == log[i];
    AcceptsSnoc(lens, START, log[..i], log[i]);
    assert log[..i] + [log[i]] == log[..i + 1];
  }

  lemma StretchInOrder(lens: seq<nat>, log: seq<Event>, i: nat, j: nat, k: nat)
    requires Fits(lens, START) && Accepts(lens, START, log)
    requires i <= j <= |log| && NoSwitch(log[i..j]) && k < |SentPages(log[i..j])|
    ensures SentPages(log[i..j])[k] == FromPage(lens, At(lens, log, i).due, k)
  {
    assert log[i..j] + log[j..] == log[i..];
    AcceptsAppend(lens, At(lens, log, i), log[i..j], log[j..]);
    CyclicOrder(lens, At(lens, log, i), log[i..j], k);
  }

  /** Where a stretch of the log that follows a switch, or starts the log, begins to play. */
  function StretchStart(log: seq<Event>, i: nat): Pos
    requires i == 0 || (i <= |log| && log[i - 1].Taken?)
  {
    if i == 0 then Pos(0, 0) else Pos(log[i - 1].track, 0)
  }

  lemma DueAtStart(lens: seq<nat>, log: seq<Event>, i: nat)
    requires Fits(lens, START) && Accepts(lens, START, log)
    requires i == 0 || (i <= |log| && log[i - 1].Taken?)
    ensures At(lens, log, i).due == StretchStart(log, i)
  {
    if i == 0 {
      assert log[..0] == [];
    } else {
      AtNext(lens, log, i - 1);
    }
  }

  /** Between two switches the player plays the cyclic playlist, from the start of the track switched to. */
  lemma PlaysInOrder(lens: seq<nat>, checked: bool, run: seq<Action>, i: nat, j: nat, k: nat)
    requires Playable(lens) && ValidRun(Init(lens, checked), run)
    requires var log := Exec(Init(lens, checked), run).log;
      && i <= j <= |log|
      && (i == 0 || log[i - 1].Taken?)
      && NoSwitch(log[i..j])
      && k < |SentPages(log[i..j])|
    ensures var log := Exec(Init(lens, checked), run).log;
      && OnPage(lens, StretchStart(log, i))
      && SentPages(log[i..j])[k] == FromPage(lens, StretchStart(log, i), k)
  {
    PlayerRefines(lens, checked, run);
    var log := Exec(Init(lens, checked), run).log;
    DueAtStart(lens, log, i);
    StretchInOrder(lens, log, i, j, k);
  }

  /** The request pending after `i` events is the last one made and has not been taken. */
  lemma {:induction false} PendingIsLatest(lens: seq<nat>, log: seq<Event>, i: nat) returns (j: nat)
    requires Fits(lens, START) && Accepts(lens, START, log) && i <= |log| && At(lens, log, i).pending >= 0
    ensures j < i && log[j] == Requested(At(lens, log, i).pending)
    ensures forall m :: j < m < i ==> !log[m].Requested? && !log[m].Taken?
  {
    assert log[..0] == [];
    assert i > 0;
    AtNext(lens, log, i - 1);
    if log[i - 1].Requested? {
      j := i - 1;
    } else {
      j := PendingIsLatest(lens, log, i - 1);
    }
  }

  /** Every switch taken is the latest request, which no earlier switch took. */
  lemma TakesLatestRequest(lens: seq<nat>, checked: bool, run: seq<Action>, i: nat) returns (j: nat)
    requires Playable(lens) && ValidRun(Init(lens, checked), run)
    requires var log := Exec(Init(lens, checked), run).log; i < |log| && log[i].Taken?
    ensures var log := Exec(Init(lens, checked), run).log;
      && j < i
      && log[j] == Requested(log[i].track)
      && forall m :: j < m < i ==> !log[m].Requested? && !log[m].Taken?
  {
    PlayerRefines(lens, checked, run);
    var log := Exec(Init(lens, checked), run).log;
    AtNext(lens, log, i);
    j := PendingIsLatest(lens, log, i);
  }

  /** The idle count rises from a skip until a page goes out. */
  lemma {:induction false} IdleSince(lens: seq<nat>, log: seq<Event>, i: nat, j: nat)
    requires Fits(lens, START) && Accepts(lens, START, log) && i < j <= |log| && log[i].Skipped?
    requires forall m :: i < m < j ==> !log[m].Sent?
    ensures At(lens, log, j).idle > 0
    decreases j
  {
    AtNext(lens, log, j - 1);
    if i < j - 1 {
      IdleSince(lens, log, i, j - 1);
    }
  }

  /** Between any two iterations that send nothing there is one that sends a page. */
  lemma NoTwoIdleIterations(lens: seq<nat>, checked: bool, run: seq<Action>, i: nat, j: nat)
    requires Playable(lens) && ValidRun(Init(lens, checked), run)
    requires var log := Exec(Init(lens, checked), run).log; i < j < |log| && log[i].Skipped? && log[j].Skipped?
    ensures var log := Exec(Init(lens, checked), run).log; exists m :: i < m < j && log[m].Sent?
  {
    PlayerRefines(lens, checked, run);
    var log := Exec(Init(lens, checked), run).log;
    if forall m :: i < m < j ==> !log[m].Sent? {
      IdleSince(lens, log, i, j);
      AtNext(lens, log, j);
    }
  }

  /** The player's input is what `parse_playlist` gives whenever it found anything to play. */
  lemma ParsedPlaylistIsPlayable(span: Demux.Span, pages: seq<Demux.Page>)
    requires 0 < |Demux.Playlist(span, pages)| <= I32_MAX
    ensures var tracks := Demux.Playlist(span, pages);
      Playable(seq(|tracks|, i requires 0 <= i < |tracks| => |tracks[i].pages|))
  {
    forall k | 0 <= k < |Demux.Playlist(span, pages)|
      ensures |Demux.Playlist(span, pages)[k].pages| > 0
    {
      Demux.RuntimeIsSum(span, pages, k);
    }
  }
}
