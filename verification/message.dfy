/** The playlist messages: printed by the server, parsed by the page script. */
module PlaylistMessage {
  import opened Options
  import opened Seqs
  import opened Text
  import Demux

  type Track = Demux.Track

  // ------------------------------------------------------------------ printing

  const I32_MAX: int := 0x7FFF_FFFF

  function NormalizeIndex(i: int, limit: int): (r: int)
    ensures limit > 0 ==> 0 <= r < limit
    ensures 0 <= i < limit ==> r == i
  {
    if limit == 0 || i < 0 then 0 else if i >= limit then limit - 1 else i
  }

  /** Every occurrence of one character replaced by another. */
  function Replace(s: string, from: char, to: char): (r: string)
    ensures |r| == |s|
  {
    seq(|s|, i requires 0 <= i < |s| => if s[i] == from then to else s[i])
  }

  function Clean(s: string): (r: string)
    ensures |r| == |s| && Free(r, '\n') && Free(r, '|')
  {
    Replace(Replace(s, '\n', ' '), '|', '/')
  }

  function Millis(t: Track): nat {
    t.runtime / 1_000_000
  }

  /** The fields of a line, each followed by the separator except the last. */
  function Join(fields: seq<string>, c: char): string
    requires fields != []
  {
    if |fields| == 1 then fields[0] else fields[0] + [c] + Join(fields[1..], c)
  }

  function TrackFields(t: Track, i: nat): seq<string> {
    ["track", Decimal(i), Decimal(t.serial), Decimal(Millis(t)), Clean(t.title), Clean(t.artist)]
  }

  function CommentText(c: Demux.Comment): string {
    Clean(c.key) + "=" + Clean(c.value)
  }

  function CommentTexts(comments: seq<Demux.Comment>): seq<string> {
    seq(|comments|, i requires 0 <= i < |comments| => CommentText(comments[i]))
  }

  function CommentsText(comments: seq<Demux.Comment>): string {
    if comments == [] then "" else Join(CommentTexts(comments), ',')
  }

  function CommentsOf(t: Track): seq<Demux.Comment> {
    if t.tags.None? then [] else t.tags.value.comments
  }

  function Channels(t: Track): nat {
    if t.header.Some? then t.header.value.channels else 2
  }

  function SampleRate(t: Track): nat {
    if t.header.Some? then t.header.value.sampleRate else 48_000
  }

  /** The fields of the now-playing line before the comments, which come last. */
  function NowFront(t: Track, i: nat): seq<string> {
    ["now", Decimal(i), Decimal(t.serial), Decimal(Channels(t)), Decimal(SampleRate(t)), Decimal(Millis(t)),
     Clean(t.title), Clean(t.artist), Clean(t.vendor)]
  }

  function TrackLine(t: Track, i: nat): string {
    Join(TrackFields(t, i), '|')
  }

  function NowLine(t: Track, i: nat): string {
    Join(NowFront(t, i) + [CommentsText(CommentsOf(t))], '|')
  }

  function HeadLine(index: nat): string {
    Join(["playlist", Decimal(index)], '|')
  }

  function Index(tracks: seq<Track>, current: int): nat {
    NormalizeIndex(current, |tracks|)
  }

  /** The lines with a newline after each. */
  function Ended(lines: seq<string>): string {
    if lines == [] then "" else lines[0] + "\n" + Ended(lines[1..])
  }

  function TrackLines(tracks: seq<Track>, n: nat): (lines: seq<string>)
    requires n <= |tracks|
    ensures |lines| == n
  {
    if n == 0 then [] else TrackLines(tracks, n - 1) + [TrackLine(tracks[n - 1], n - 1)]
  }

  /** The playlist line, a line for each track and, when there is a track, the now-playing line. */
  function Lines(tracks: seq<Track>, current: int): seq<string> {
    var index := Index(tracks, current);
    [HeadLine(index)] + TrackLines(tracks, |tracks|) +
    (if tracks == [] then [] else [NowLine(tracks[index], index)])
  }

  lemma {:induction false} EndedAppend(a: seq<string>, b: seq<string>)
    ensures Ended(a + b) == Ended(a) + Ended(b)
  {
    if a == [] {
      assert a + b == b;
    } else {
      EndedAppend(a[1..], b);
      assert (a + b)[0] == a[0] && (a + b)[1..] == a[1..] + b;
      Regroup(a[0] + "\n", Ended(a[1..]), Ended(b));
    }
  }

  lemma EndedSnoc(lines: seq<string>, line: string)
    ensures Ended(lines + [line]) == Ended(lines) + line + "\n"
  {
    EndedAppend(lines, [line]);
    assert Ended([line]) == line + "\n" + Ended([]);
  }

  method AppendTracks(head: string, tracks: seq<Track>) returns (msg: string)
    requires |tracks| <= I32_MAX
    ensures msg == Ended([head] + TrackLines(tracks, |tracks|))
  {
    ghost var start := [head];
    EndedSnoc([], head);
    assert [] + [head] == start;
    msg := head + "\n";
    for i := 0 to |tracks|
      invariant msg == Ended(start + TrackLines(tracks, i))
    {
      var line := TrackLine(tracks[i], i);
      EndedSnoc(start + TrackLines(tracks, i), line);
      assert start + TrackLines(tracks, i) + [line] == start + TrackLines(tracks, i + 1);
      msg := msg + line + "\n";
    }
  }

  method BuildPlaylistMessage(tracks: seq<Track>, current: int) returns (msg: string)
    requires |tracks| <= I32_MAX
    ensures msg == Ended(Lines(tracks, current))
  {
    var index: nat := Index(tracks, current);
    var head := HeadLine(index);
    msg := AppendTracks(head, tracks);
    if |tracks| == 0 {
      assert Lines(tracks, current) == [head] + TrackLines(tracks, |tracks|);
    } else {
      var line := NowLine(tracks[index], index);
      EndedSnoc([head] + TrackLines(tracks, |tracks|), line);
      msg := msg + line + "\n";
    }
  }

  /** The message sent when the player moves to another track. */
  function NowPlaying(tracks: seq<Track>, index: nat): string {
    if index >= |tracks| then "" else NowLine(tracks[index], index) + "\n"
  }

  // ------------------------------------------------------------------- parsing

  /** White space and line terminators of the script language. */
  predicate IsSpace(c: char) {
    var n := c as int;
    || 9 <= n <= 13 || n == 0x20 || n == 0xA0 || n == 0x1680 || 0x2000 <= n <= 0x200A
    || n == 0x2028 || n == 0x2029 || n == 0x202F || n == 0x205F || n == 0x3000 || n == 0xFEFF
  }

  function TrimEnd(s: string): string {
    if s != [] && IsSpace(s[|s| - 1]) then TrimEnd(s[..|s| - 1]) else s
  }

  function TrimStart(s: string): string {
    if s != [] && IsSpace(s[0]) then TrimStart(s[1..]) else s
  }

  function Trim(s: string): string {
    TrimStart(TrimEnd(s))
  }

  /** A script number: a decimal numeral, or anything else `Number` would be given. */
  datatype Number = Num(value: nat) | NotDecimal(text: string)

  datatype Item = Item(index: Number, serial: Number, durationMs: Number, title: string, artist: string)

  datatype Pair = Pair(key: string, value: Option<string>)

  datatype Now = Now(
    index: Number, serial: Number, channels: Number, sampleRate: Number, durationMs: Number,
    title: string, artist: string, vendor: string, comments: seq<Pair>)

  datatype View = View(playlist: seq<Item>, current: Option<Number>, now: Option<Now>, logged: seq<string>)

  function Field(parts: seq<string>, i: nat): string {
    if i < |parts| then parts[i] else ""
  }

  function NumberField(parts: seq<string>, i: nat): Number {
    var s := Field(parts, i);
    if IsDigits(s) then Num(DecimalValue(s)) else NotDecimal(s)
  }

  function ToPair(s: string): Pair {
    var kv := Split(s, '=');
    Pair(kv[0], if |kv| > 1 then Some(kv[1]) else None)
  }

  function ToPairs(pieces: seq<string>): seq<Pair> {
    if pieces == [] then []
    else (if pieces[0] == "" then [] else [ToPair(pieces[0])]) + ToPairs(pieces[1..])
  }

  function ItemOf(parts: seq<string>): Item {
    Item(NumberField(parts, 1), NumberField(parts, 2), NumberField(parts, 3), Field(parts, 4), Field(parts, 5))
  }

  function NowOf(parts: seq<string>): Now {
    Now(NumberField(parts, 1), NumberField(parts, 2), NumberField(parts, 3), NumberField(parts, 4),
        NumberField(parts, 5),
        Field(parts, 6), Field(parts, 7), Field(parts, 8), ToPairs(Split(Field(parts, 9), ',')))
  }

  function HandleLine(v: View, line: string): View {
    var parts := Split(line, '|');
    if parts[0] == "playlist" then v.(current := Some(NumberField(parts, 1)))
    else if parts[0] == "track" then v.(playlist := v.playlist + [ItemOf(parts)])
    else if parts[0] == "now" then v.(now := Some(NowOf(parts)))
    else v.(logged := v.logged + [line])
  }

  function HandleLines(lines: seq<string>): View {
    if lines == [] then View([], None, None, [])
    else HandleLine(HandleLines(lines[..|lines| - 1]), lines[|lines| - 1])
  }

  function Handle(data: string): View {
    HandleLines(Split(Trim(data), '\n'))
  }

  method HandleMessage(data: string) returns (v: View)
    ensures v == Handle(data)
  {
    var lines := Split(Trim(data), '\n');
    var playlist: seq<Item>, current: Option<Number>, now: Option<Now>, logged: seq<string> := [], None, None, [];
    for i := 0 to |lines|
      invariant View(playlist, current, now, logged) == HandleLines(lines[..i])
    {
      assert lines[..i + 1][..i] == lines[..i];
      var parts := Split(lines[i], '|');
      if parts[0] == "playlist" {
        current := Some(NumberField(parts, 1));
      } else if parts[0] == "track" {
        playlist := playlist + [ItemOf(parts)];
      } else if parts[0] == "now" {
        now := Some(NowOf(parts));
      } else {
        logged := logged + [lines[i]];
      }
    }
    assert lines[..|lines|] == lines;
    v := View(playlist, current, now, logged);
  }

  // ---------------------------------------------------------------- round trip

  predicate AllFree(fields: seq<string>, c: char) {
    forall i :: 0 <= i < |fields| ==> Free(fields[i], c)
  }

  lemma {:induction false} SplitJoin(fields: seq<string>, c: char)
    requires fields != [] && AllFree(fields, c)
    ensures Split(Join(fields, c), c) == fields
    decreases |fields|
  {
    if |fields| == 1 {
      SplitLast(fields[0], c);
    } else {
      SplitFirst(fields[0], c, Join(fields[1..], c));
      SplitJoin(fields[1..], c);
    }
  }

  lemma {:induction false} JoinFree(fields: seq<string>, c: char, d: char)
    requires fields != [] && c != d && AllFree(fields, d)
    ensures Free(Join(fields, c), d)
    decreases |fields|
  {
    if |fields| > 1 {
      JoinFree(fields[1..], c, d);
    }
  }

  lemma {:induction false} SplitEnded(lines: seq<string>, last: string)
    requires AllFree(lines, '\n') && Free(last, '\n')
    ensures Split(Ended(lines) + last, '\n') == lines + [last]
  {
    if lines == [] {
      SplitLast(last, '\n');
      assert Ended(lines) + last == last;
    } else {
      SplitEnded(lines[1..], last);
      SplitFirst(lines[0], '\n', Ended(lines[1..]) + last);
      Regroup(lines[0] + "\n", Ended(lines[1..]), last);
      assert lines + [last] == [lines[0]] + (lines[1..] + [last]);
    }
  }

  /** Trimming the end stops at a character that is not white space. */
  lemma {:induction false} TrimEndStops(a: string, c: char, b: string)
    requires !IsSpace(c)
    ensures TrimEnd(a + [c] + b) == a + [c] + TrimEnd(b)
    decreases |b|
  {
    var s := a + [c] + b;
    if b == [] || !IsSpace(b[|b| - 1]) {
      assert b == [] ==> s == a + [c];
    } else {
      var b' := b[..|b| - 1];
      assert s[..|s| - 1] == a + [c] + b';
      TrimEndStops(a, c, b');
    }
  }

  /** Trimming a text that starts and stops being visible within `body`. */
  lemma TrimAfter(body: string, b: string)
    requires body != [] && !IsSpace(body[0]) && !IsSpace(body[|body| - 1])
    ensures Trim(body + b + "\n") == body + TrimEnd(b)
  {
    var n := |body| - 1;
    assert body[..n] + [body[n]] == body;
    assert body + b + "\n" == body + (b + "\n");
    TrimEndStops(body[..n], body[n], b + "\n");
    assert (b + "\n")[..|b|] == b;
    assert (body + TrimEnd(b))[0] == body[0];
  }

  lemma DigitsFree(n: nat)
    ensures Free(Decimal(n), '|') && Free(Decimal(n), '\n')
  {
  }

  lemma CommentsFree(comments: seq<Demux.Comment>)
    ensures Free(CommentsText(comments), '|') && Free(CommentsText(comments), '\n')
  {
    if comments != [] {
      JoinFree(CommentTexts(comments), ',', '|');
      JoinFree(CommentTexts(comments), ',', '\n');
    }
  }

  lemma {:induction false} JoinSnoc(fields: seq<string>, last: string, c: char)
    requires fields != []
    ensures Join(fields + [last], c) == Join(fields, c) + [c] + last
    decreases |fields|
  {
    if |fields| == 1 {
      assert (fields + [last])[1..] == [last];
    } else {
      JoinSnoc(fields[1..], last, c);
      assert (fields + [last])[1..] == fields[1..] + [last];
    }
  }

  lemma {:induction false} TrimEndPrefix(s: string)
    ensures TrimEnd(s) <= s
  {
    if s != [] && IsSpace(s[|s| - 1]) {
      TrimEndPrefix(s[..|s| - 1]);
    }
  }

  // What each kind of line parses to.

  /** A text as the page shows it: line breaks are spaces, bars are slashes, the rest is as it was. */
  function Shown(s: string): (r: string)
    ensures |r| == |s|
  {
    if s == [] then []
    else Shown(s[..|s| - 1]) + match s[|s| - 1] case '\n' => " " case '|' => "/" case c => [c]
  }

  lemma {:induction false} CleanIsShown(s: string)
    ensures Clean(s) == Shown(s)
  {
    if s != [] {
      var n := |s| - 1;
      CleanIsShown(s[..n]);
      assert Clean(s)[..n] == Clean(s[..n]);
      assert Clean(s) == Clean(s)[..n] + [Clean(s)[n]];
    }
  }

  function ExpectedItem(t: Track, i: nat): Item {
    Item(Num(i), Num(t.serial), Num(t.runtime / 1_000_000), Shown(t.title), Shown(t.artist))
  }

  /** Comments as the page shows them: `PlaylistComments` says when they are the ones sent. */
  function Received(comments: seq<Demux.Comment>): seq<Pair> {
    ToPairs(Split(TrimEnd(CommentsText(comments)), ','))
  }

  function ExpectedNow(t: Track, i: nat): Now {
    Now(Num(i), Num(t.serial),
        Num(if t.header.Some? then t.header.value.channels else 2),
        Num(if t.header.Some? then t.header.value.sampleRate else 48_000), Num(t.runtime / 1_000_000),
        Shown(t.title), Shown(t.artist), Shown(t.vendor), Received(CommentsOf(t)))
  }

  lemma HeadParsed(v: View, index: nat)
    ensures HandleLine(v, HeadLine(index)) == v.(current := Some(Num(index)))
    ensures Free(HeadLine(index), '\n')
  {
    var fields := ["playlist", Decimal(index)];
    SplitJoin(fields, '|');
    JoinFree(fields, '|', '\n');
    DecimalRoundTrip(index);
  }

  lemma TrackParsed(v: View, t: Track, i: nat)
    ensures HandleLine(v, TrackLine(t, i)) == v.(playlist := v.playlist + [ExpectedItem(t, i)])
    ensures Free(TrackLine(t, i), '\n')
  {
    CleanIsShown(t.title);
    CleanIsShown(t.artist);
    SplitJoin(TrackFields(t, i), '|');
    JoinFree(TrackFields(t, i), '|', '\n');
    DecimalRoundTrip(i);
    DecimalRoundTrip(t.serial);
    DecimalRoundTrip(Millis(t));
  }

  /** The text of a track's line, field by field. */
  lemma TrackText(v: View, index: nat, serial: nat, millis: nat, title: string, artist: string)
    requires Free(title, '|') && Free(artist, '|')
    ensures HandleLine(v, "track" + "|" + Decimal(index) + "|" + Decimal(serial) + "|" + Decimal(millis)
                          + "|" + title + "|" + artist)
         == v.(playlist := v.playlist + [Item(Num(index), Num(serial), Num(millis), title, artist)])
  {
    var fields := ["track", Decimal(index), Decimal(serial), Decimal(millis), title, artist];
    JoinSix(fields);
    DigitsFree(index);
    DigitsFree(serial);
    DigitsFree(millis);
    SplitJoin(fields, '|');
    NumberRead(fields, 1, index);
    NumberRead(fields, 2, serial);
    NumberRead(fields, 3, millis);
  }

  lemma NumberRead(fields: seq<string>, i: nat, n: nat)
    requires i < |fields| && fields[i] == Decimal(n)
    ensures NumberField(fields, i) == Num(n)
  {
    DecimalRoundTrip(n);
  }

  lemma JoinSix(f: seq<string>)
    requires |f| == 6
    ensures Join(f, '|') == f[0] + "|" + f[1] + "|" + f[2] + "|" + f[3] + "|" + f[4] + "|" + f[5]
  {
    JoinSnoc(f[..5], f[5], '|');
    JoinSnoc(f[..4], f[4], '|');
    JoinSnoc(f[..3], f[3], '|');
    JoinSnoc(f[..2], f[2], '|');
    JoinSnoc(f[..1], f[1], '|');
    assert f == f[..5] + [f[5]] && f[..5] == f[..4] + [f[4]] && f[..4] == f[..3] + [f[3]];
    assert f[..3] == f[..2] + [f[2]] && f[..2] == f[..1] + [f[1]];
  }

  function TrimmedNow(t: Track, i: nat): seq<string> {
    NowFront(t, i) + [TrimEnd(CommentsText(CommentsOf(t)))]
  }

  lemma FrontFree(t: Track, i: nat)
    ensures AllFree(NowFront(t, i), '|') && AllFree(NowFront(t, i), '\n')
  {
    DigitsFree(i);
    DigitsFree(t.serial);
  }

  lemma TrimmedFree(fields: seq<string>, s: string, c: char)
    requires AllFree(fields, c) && Free(s, c)
    ensures AllFree(fields + [TrimEnd(s)], c)
  {
    TrimEndPrefix(s);
    assert forall i :: 0 <= i < |TrimEnd(s)| ==> TrimEnd(s)[i] == s[i];
  }

  lemma NowFree(t: Track, i: nat)
    ensures AllFree(TrimmedNow(t, i), '|') && AllFree(TrimmedNow(t, i), '\n')
  {
    FrontFree(t, i);
    CommentsFree(CommentsOf(t));
    TrimmedFree(NowFront(t, i), CommentsText(CommentsOf(t)), '|');
    TrimmedFree(NowFront(t, i), CommentsText(CommentsOf(t)), '\n');
  }

  lemma NowParsed(v: View, t: Track, i: nat)
    ensures HandleLine(v, Join(TrimmedNow(t, i), '|')) == v.(now := Some(ExpectedNow(t, i)))
    ensures Free(Join(TrimmedNow(t, i), '|'), '\n')
  {
    CleanIsShown(t.title);
    CleanIsShown(t.artist);
    CleanIsShown(t.vendor);
    NowFree(t, i);
    SplitJoin(TrimmedNow(t, i), '|');
    JoinFree(TrimmedNow(t, i), '|', '\n');
    DecimalRoundTrip(i);
    DecimalRoundTrip(t.serial);
    DecimalRoundTrip(Channels(t));
    DecimalRoundTrip(SampleRate(t));
    DecimalRoundTrip(Millis(t));
  }

  function ExpectedItems(tracks: seq<Track>, n: nat): (items: seq<Item>)
    requires n <= |tracks|
    ensures |items| == n
  {
    seq(n, i requires 0 <= i < n => ExpectedItem(tracks[i], i))
  }

  lemma HandleSnoc(lines: seq<string>, line: string)
    ensures HandleLines(lines + [line]) == HandleLine(HandleLines(lines), line)
  {
    assert (lines + [line])[..|lines|] == lines;
  }

  /** A text that trims to some ended lines and a last one is handled line by line. */
  lemma HandleTrimmed(data: string, lines: seq<string>, last: string)
    requires Trim(data) == Ended(lines) + last
    requires AllFree(lines, '\n') && Free(last, '\n')
    ensures Handle(data) == HandleLine(HandleLines(lines), last)
  {
    SplitEnded(lines, last);
    HandleSnoc(lines, last);
  }

  lemma {:induction false} TracksFree(tracks: seq<Track>, n: nat)
    requires n <= |tracks|
    ensures AllFree(TrackLines(tracks, n), '\n')
  {
    if n > 0 {
      TracksFree(tracks, n - 1);
      JoinFree(TrackFields(tracks[n - 1], n - 1), '|', '\n');
    }
  }

  lemma TrackStep(lines: seq<string>, t: Track, i: nat)
    ensures HandleLines(lines + [TrackLine(t, i)])
         == HandleLines(lines).(playlist := HandleLines(lines).playlist + [ExpectedItem(t, i)])
  {
    HandleSnoc(lines, TrackLine(t, i));
    TrackParsed(HandleLines(lines), t, i);
  }

  lemma LinesSnoc(start: seq<string>, tracks: seq<Track>, n: nat)
    requires 0 < n <= |tracks|
    ensures start + TrackLines(tracks, n) == start + TrackLines(tracks, n - 1) + [TrackLine(tracks[n - 1], n - 1)]
  {
    Regroup(start, TrackLines(tracks, n - 1), [TrackLine(tracks[n - 1], n - 1)]);
  }

  lemma ItemsSnoc(items: seq<Item>, tracks: seq<Track>, n: nat)
    requires 0 < n <= |tracks|
    ensures items + ExpectedItems(tracks, n)
         == items + ExpectedItems(tracks, n - 1) + [ExpectedItem(tracks[n - 1], n - 1)]
  {
    assert ExpectedItems(tracks, n) == ExpectedItems(tracks, n - 1) + [ExpectedItem(tracks[n - 1], n - 1)];
    Regroup(items, ExpectedItems(tracks, n - 1), [ExpectedItem(tracks[n - 1], n - 1)]);
  }

  /** The track lines add the tracks in order. */
  lemma {:induction false} TracksParsed(start: seq<string>, tracks: seq<Track>, n: nat)
    requires n <= |tracks|
    ensures HandleLines(start + TrackLines(tracks, n))
         == HandleLines(start).(playlist := HandleLines(start).playlist + ExpectedItems(tracks, n))
  {
    if n == 0 {
      assert start + TrackLines(tracks, n) == start;
    } else {
      TracksParsed(start, tracks, n - 1);
      TrackStep(start + TrackLines(tracks, n - 1), tracks[n - 1], n - 1);
      LinesSnoc(start, tracks, n);
      ItemsSnoc(HandleLines(start).playlist, tracks, n);
    }
  }

  lemma HeadAlone(index: nat)
    ensures HandleLines([HeadLine(index)]) == View([], Some(Num(index)), None, [])
    ensures Free(HeadLine(index), '\n')
  {
    HeadParsed(HandleLines([]), index);
    HandleSnoc([], HeadLine(index));
    assert [] + [HeadLine(index)] == [HeadLine(index)];
  }

  lemma HeadStarts(index: nat)
    ensures HeadLine(index) != [] && HeadLine(index)[0] == 'p'
    ensures var c := HeadLine(index)[|HeadLine(index)| - 1]; '0' <= c <= '9'
  {
    JoinSnoc(["playlist"], Decimal(index), '|');
    assert ["playlist"] + [Decimal(index)] == ["playlist", Decimal(index)];
  }

  /** Only the comments at the end of a now-playing message lose trailing white space. */
  lemma TrimNow(front: string, t: Track, i: nat)
    requires front != [] ==> front[0] == 'p'
    ensures Trim(front + NowLine(t, i) + "\n") == front + Join(TrimmedNow(t, i), '|')
  {
    var fields, text := NowFront(t, i), CommentsText(CommentsOf(t));
    assert Join(fields, '|')[0] == fields[0][0] == 'n';
    TrimLast(front, fields, text);
  }

  lemma TrimLast(front: string, fields: seq<string>, text: string)
    requires front != [] ==> front[0] == 'p'
    requires fields != [] && Join(fields, '|') != [] && Join(fields, '|')[0] == 'n'
    ensures Trim(front + Join(fields + [text], '|') + "\n") == front + Join(fields + [TrimEnd(text)], '|')
  {
    JoinSnoc(fields, text, '|');
    JoinSnoc(fields, TrimEnd(text), '|');
    var line := Join(fields, '|');
    var body := front + (line + ['|']);
    TrimAfter(body, text);
    Regroup(front, line + ['|'], text);
    Regroup(front, line + ['|'], TrimEnd(text));
  }

  /** What the page shows for a playlist message. */
  function Expected(tracks: seq<Track>, current: int): View {
    var index := Index(tracks, current);
    View(ExpectedItems(tracks, |tracks|), Some(Num(index)),
         if tracks == [] then None else Some(ExpectedNow(tracks[index], index)), [])
  }

  lemma TrimHead(index: nat)
    ensures Trim(HeadLine(index) + "\n") == HeadLine(index)
  {
    var head := HeadLine(index);
    HeadStarts(index);
    TrimAfter(head, "");
    assert head + "" == head;
  }

  lemma HeadRoundTrip(index: nat)
    ensures Handle(HeadLine(index) + "\n") == View([], Some(Num(index)), None, [])
  {
    var head := HeadLine(index);
    HeadParsed(HandleLines([]), index);
    TrimHead(index);
    assert head == Ended([]) + head;
    HandleTrimmed(head + "\n", [], head);
  }

  lemma EmptyRoundTrip(tracks: seq<Track>, current: int)
    requires tracks == []
    ensures Handle(Ended(Lines(tracks, current))) == Expected(tracks, current)
  {
    var index := Index(tracks, current);
    HeadRoundTrip(index);
    EndedSnoc([], HeadLine(index));
    assert Lines(tracks, current) == [] + [HeadLine(index)];
    assert Ended([]) + HeadLine(index) + "\n" == HeadLine(index) + "\n";
    assert ExpectedItems(tracks, 0) == [];
  }

  /** Every playlist message parses to the playlist it was printed from, the empty one included. */
  lemma PlaylistRoundTrip(tracks: seq<Track>, current: int)
    ensures Handle(Ended(Lines(tracks, current))) == Expected(tracks, current)
  {
    if tracks == [] {
      EmptyRoundTrip(tracks, current);
    } else {
      var index := Index(tracks, current);
      var t, head := tracks[index], HeadLine(index);
      var front := [head] + TrackLines(tracks, |tracks|);
      HeadAlone(index);
      TracksParsed([head], tracks, |tracks|);
      TracksFree(tracks, |tracks|);
      EndedSnoc(front, NowLine(t, index));
      HeadStarts(index);
      assert Ended(front)[0] == head[0];
      TrimNow(Ended(front), t, index);
      NowParsed(HandleLines(front), t, index);
      HandleTrimmed(Ended(Lines(tracks, current)), front, Join(TrimmedNow(t, index), '|'));
    }
  }

  lemma NowLineRoundTrip(t: Track, index: nat)
    ensures Handle(NowLine(t, index) + "\n") == HandleLines([]).(now := Some(ExpectedNow(t, index)))
  {
    var line, last := NowLine(t, index), Join(TrimmedNow(t, index), '|');
    TrimNow("", t, index);
    assert "" + line + "\n" == line + "\n";
    NowParsed(HandleLines([]), t, index);
    assert "" + last == Ended([]) + last;
    HandleTrimmed(line + "\n", [], last);
  }

  /** So does the message sent when the player moves to another track. */
  lemma NowPlayingRoundTrip(tracks: seq<Track>, index: nat)
    requires index < |tracks|
    ensures Handle(NowPlaying(tracks, index)) == View([], None, Some(ExpectedNow(tracks[index], index)), [])
  {
    NowLineRoundTrip(tracks[index], index);
  }

  /** A line with fields missing reads as zeros and empty texts. */
  lemma BareTrack(v: View)
    ensures HandleLine(v, "track") == v.(playlist := v.playlist + [Item(Num(0), Num(0), Num(0), "", "")])
  {
    var parts := ["track"];
    SplitLast("track", '|');
    assert Field(parts, 1) == Field(parts, 2) == Field(parts, 3) == Field(parts, 4) == Field(parts, 5) == "";
  }

  lemma BareHead(v: View)
    ensures HandleLine(v, "playlist") == v.(current := Some(Num(0)))
  {
    SplitLast("playlist", '|');
  }

  /** A line of no known kind is logged and changes nothing else. */
  lemma OtherLinesLogged(v: View, kind: string, rest: string)
    requires Free(kind, '|') && kind != "playlist" && kind != "track" && kind != "now"
    ensures HandleLine(v, kind + "|" + rest) == v.(logged := v.logged + [kind + "|" + rest])
  {
    SplitFirst(kind, '|', rest);
  }
}
