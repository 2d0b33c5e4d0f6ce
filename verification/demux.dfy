/** The playlist demultiplexer: an Ogg page stream with interleaved serials becomes one track per serial. */
module Demux {
  import opened Options
  import opened Text

  datatype OggHeader = OggHeader(channels: nat, sampleRate: nat)

  datatype Comment = Comment(key: string, value: string)

  datatype OpusTags = OpusTags(vendor: string, comments: seq<Comment>)

  /** How a page's payload is recognised; header payloads may fail to parse. */
  datatype PageKind = Head(header: Option<OggHeader>) | Tags(tags: Option<OpusTags>) | Audio

  datatype Page = Page(serial: nat, kind: PageKind, payload: seq<nat>, granule: nat)

  datatype BufferedPage = BufferedPage(payload: seq<nat>, duration: nat, granule: nat)

  datatype Track = Track(
    serial: nat,
    header: Option<OggHeader>,
    tags: Option<OpusTags>,
    title: string,
    artist: string,
    vendor: string,
    pages: seq<BufferedPage>,
    runtime: nat)

  /** How reading the file ends: at the end of the file, or with another error. */
  datatype End = Eof | ReaderError

  datatype Result = Ok(tracks: seq<Track>) | Err

  /** The floating-point length of a number of samples at a rate, in nanoseconds. */
  type Span = (nat, nat) -> nat

  const TWENTY_MS: nat := 20_000_000

  function NewTrack(serial: nat): Track {
    Track(serial, None, None, "serial-" + Decimal(serial), "", "", [], 0)
  }

  function PageDuration(span: Span, header: OggHeader, granule: nat, last: nat): nat {
    if granule <= last then TWENTY_MS
    else span(granule - last, if header.sampleRate == 0 then 48_000 else header.sampleRate)
  }

  function LowerChar(c: char): char {
    if 'A' <= c <= 'Z' then c - 'A' + 'a' else c
  }

  function Lower(s: string): string {
    seq(|s|, i requires 0 <= i < |s| => LowerChar(s[i]))
  }

  function ApplyComment(t: Track, c: Comment): Track {
    if Lower(c.key) == "title" then t.(title := c.value)
    else if Lower(c.key) == "artist" then t.(artist := c.value)
    else t
  }

  function ApplyComments(t: Track, comments: seq<Comment>): Track {
    if comments == [] then t
    else
      ApplyComment(ApplyComments(t, comments[..|comments| - 1]), comments[|comments| - 1])
  }

  function ApplyTags(t: Track, tags: OpusTags): Track {
    var u := ApplyComments(t, tags.comments);
    u.(vendor := if u.vendor == "" then tags.vendor else u.vendor, tags := Some(tags))
  }

  // ------------------------------------------------- one serial, taken by itself

  datatype Entry = Entry(track: Track, lastGranule: nat)

  function Step(span: Span, e: Entry, p: Page): Entry {
    match p.kind
    case Head(header) => if header.Some? then e.(track := e.track.(header := header)) else e
    case Tags(tags) => if tags.Some? then e.(track := ApplyTags(e.track, tags.value)) else e
    case Audio =>
      if e.track.header.None? then e
      else
        var d := PageDuration(span, e.track.header.value, p.granule, e.lastGranule);
        Entry(e.track.(pages := e.track.pages + [BufferedPage(p.payload, d, p.granule)],
                       runtime := e.track.runtime + d),
              p.granule)
  }

  /** The entry of a serial after its own pages, in order. */
  function Fold(span: Span, serial: nat, pages: seq<Page>): Entry {
    if pages == [] then Entry(NewTrack(serial), 0)
    else Step(span, Fold(span, serial, pages[..|pages| - 1]), pages[|pages| - 1])
  }

  function Only(pages: seq<Page>, serial: nat): seq<Page> {
    if pages == [] then []
    else
      var rest := Only(pages[..|pages| - 1], serial);
      if pages[|pages| - 1].serial == serial then rest + [pages[|pages| - 1]] else rest
  }

  function EntryOf(span: Span, pages: seq<Page>, serial: nat): Entry {
    Fold(span, serial, Only(pages, serial))
  }

  /** Serials in order of first appearance. */
  function Order(pages: seq<Page>): seq<nat> {
    if pages == [] then []
    else
      var rest, serial := Order(pages[..|pages| - 1]), pages[|pages| - 1].serial;
      if serial in rest then rest else rest + [serial]
  }

  function Titled(t: Track, position: nat): Track {
    if t.title == "" || StartsWith(t.title, "serial-") then t.(title := "Track " + Decimal(position)) else t
  }

  /** The tracks with pages of the given serials, in the given order, with default titles. */
  function Collect(span: Span, pages: seq<Page>, order: seq<nat>): seq<Track> {
    if order == [] then []
    else
      var rest := Collect(span, pages, order[..|order| - 1]);
      var t := EntryOf(span, pages, order[|order| - 1]).track;
      if t.pages == [] then rest else rest + [Titled(t, |rest| + 1)]
  }

  function Playlist(span: Span, pages: seq<Page>): seq<Track> {
    Collect(span, pages, Order(pages))
  }

  // ------------------------------------------------------------ implementation

  method ReadTags(track: Track, tags: OpusTags) returns (r: Track)
    ensures r == ApplyTags(track, tags)
  {
    r := track;
    for i := 0 to |tags.comments|
      invariant r == ApplyComments(track, tags.comments[..i])
    {
      var c := tags.comments[i];
      assert tags.comments[..i + 1][..i] == tags.comments[..i];
      var key := Lower(c.key);
      if key == "title" {
        r := r.(title := c.value);
      } else if key == "artist" {
        r := r.(artist := c.value);
      }
    }
    assert tags.comments[..|tags.comments|] == tags.comments;
    if r.vendor == "" {
      r := r.(vendor := tags.vendor);
    }
    r := r.(tags := Some(tags));
  }

  lemma OnlySnoc(pages: seq<Page>, i: nat, serial: nat)
    requires i < |pages|
    ensures Only(pages[..i + 1], serial)
         == Only(pages[..i], serial) + (if pages[i].serial == serial then [pages[i]] else [])
  {
    assert pages[..i + 1][..i] == pages[..i];
  }

  lemma FoldSnoc(span: Span, serial: nat, own: seq<Page>, p: Page)
    ensures Fold(span, serial, own + [p]) == Step(span, Fold(span, serial, own), p)
  {
    assert (own + [p])[..|own|] == own;
  }

  lemma EntrySnoc(span: Span, pages: seq<Page>, i: nat, serial: nat)
    requires i < |pages|
    ensures EntryOf(span, pages[..i + 1], serial) ==
            if pages[i].serial == serial then Step(span, EntryOf(span, pages[..i], serial), pages[i])
            else EntryOf(span, pages[..i], serial)
  {
    var own, now := Only(pages[..i], serial), Only(pages[..i + 1], serial);
    OnlySnoc(pages, i, serial);
    if pages[i].serial == serial {
      assert now == own + [pages[i]];
      FoldSnoc(span, serial, own, pages[i]);
    } else {
      assert now == own;
    }
  }

  /** The entry of `serial` in the two maps, or a fresh one. */
  function Held(tracks: map<nat, Track>, last: map<nat, nat>, serial: nat): Entry {
    Entry(if serial in tracks then tracks[serial] else NewTrack(serial), if serial in last then last[serial] else 0)
  }

  ghost predicate MapsAgree(span: Span, pages: seq<Page>, tracks: map<nat, Track>, last: map<nat, nat>) {
    forall serial :: Held(tracks, last, serial) == EntryOf(span, pages, serial)
  }

  /** The maps after one page. */
  method HandlePage(span: Span, tracks: map<nat, Track>, last: map<nat, nat>, page: Page)
    returns (tracks': map<nat, Track>, last': map<nat, nat>)
    requires page.serial in tracks
    ensures Held(tracks', last', page.serial) == Step(span, Held(tracks, last, page.serial), page)
    ensures forall serial :: serial != page.serial ==> Held(tracks', last', serial) == Held(tracks, last, serial)
    ensures tracks'.Keys == tracks.Keys
  {
    tracks', last' := tracks, last;
    var track := tracks[page.serial];
    match page.kind {
      case Head(header) =>
        if header.Some? {
          track := track.(header := header);
        }
      case Tags(tags) =>
        if tags.Some? {
          track := ReadTags(track, tags.value);
        }
      case Audio =>
        if track.header.Some? {
          var duration := PageDuration(
            span, track.header.value, page.granule, if page.serial in last then last[page.serial] else 0);
          last' := last'[page.serial := page.granule];
          track := track.(
            pages := track.pages + [BufferedPage(page.payload, duration, page.granule)],
            runtime := track.runtime + duration);
        }
    }
    tracks' := tracks'[page.serial := track];
  }

  lemma OrderSnoc(pages: seq<Page>, i: nat)
    requires i < |pages|
    ensures Order(pages[..i + 1]) ==
            Order(pages[..i]) + (if pages[i].serial in Order(pages[..i]) then [] else [pages[i].serial])
  {
    assert pages[..i + 1][..i] == pages[..i];
  }

  /** A serial seen for the first time gets an empty track, which is what an unseen one holds anyway. */
  method EnterSerial(tracks: map<nat, Track>, order: seq<nat>, serial: nat, ghost last: map<nat, nat>)
    returns (tracks': map<nat, Track>, order': seq<nat>)
    requires tracks.Keys == set s | s in order
    ensures tracks'.Keys == (set s | s in order') && serial in tracks'
    ensures order' == order + (if serial in order then [] else [serial])
    ensures forall other :: Held(tracks', last, other) == Held(tracks, last, other)
  {
    tracks', order' := tracks, order;
    if serial !in tracks {
      tracks' := tracks[serial := NewTrack(serial)];
      order' := order + [serial];
    }
  }

  lemma MapsAgreeNext(span: Span, pages: seq<Page>, i: nat, tracks: map<nat, Track>, last: map<nat, nat>,
                      tracks': map<nat, Track>, last': map<nat, nat>)
    requires i < |pages| && MapsAgree(span, pages[..i], tracks, last)
    requires Held(tracks', last', pages[i].serial) == Step(span, Held(tracks, last, pages[i].serial), pages[i])
    requires forall serial :: serial != pages[i].serial ==> Held(tracks', last', serial) == Held(tracks, last, serial)
    ensures MapsAgree(span, pages[..i + 1], tracks', last')
  {
    forall serial
      ensures Held(tracks', last', serial) == EntryOf(span, pages[..i + 1], serial)
    {
      EntrySnoc(span, pages, i, serial);
      assert Held(tracks, last, serial) == EntryOf(span, pages[..i], serial);
    }
  }

  /** The read loop. */
  method ReadPages(span: Span, pages: seq<Page>) returns (tracks: map<nat, Track>, order: seq<nat>)
    ensures order == Order(pages)
    ensures tracks.Keys == set s | s in order
    ensures forall serial :: serial in tracks ==> tracks[serial] == EntryOf(span, pages, serial).track
  {
    tracks, order := map[], [];
    var last: map<nat, nat> := map[];
    var i := 0;
    while i < |pages|
      invariant 0 <= i <= |pages|
      invariant order == Order(pages[..i])
      invariant tracks.Keys == set s | s in order
      invariant MapsAgree(span, pages[..i], tracks, last)
    {
      ghost var before, last0 := tracks, last;
      OrderSnoc(pages, i);
      tracks, order := EnterSerial(tracks, order, pages[i].serial, last);
      tracks, last := HandlePage(span, tracks, last, pages[i]);
      MapsAgreeNext(span, pages, i, before, last0, tracks, last);
      i := i + 1;
    }
    assert pages[..i] == pages;
    forall serial | serial in tracks
      ensures tracks[serial] == EntryOf(span, pages, serial).track
    {
      assert Held(tracks, last, serial).track == tracks[serial];
    }
  }

  lemma CollectNext(span: Span, pages: seq<Page>, order: seq<nat>, i: nat)
    requires i < |order|
    ensures var rest := Collect(span, pages, order[..i]);
      var t := EntryOf(span, pages, order[i]).track;
      Collect(span, pages, order[..i + 1]) == if t.pages == [] then rest else rest + [Titled(t, |rest| + 1)]
  {
    assert order[..i + 1][..i] == order[..i];
  }

  /** A track without a title of its own is numbered. */
  method TitleTrack(track: Track, n: nat) returns (r: Track)
    ensures r == Titled(track, n)
  {
    r := track;
    if track.title == "" || StartsWith(track.title, "serial-") {
      r := track.(title := "Track " + Decimal(n));
    }
  }

  /** `parse_playlist` over the pages a reader yields before it ends. */
  method ParsePlaylist(span: Span, pages: seq<Page>, end: End) returns (r: Result)
    ensures r == if end == Eof then Ok(Playlist(span, pages)) else Err
  {
    var tracks, order := ReadPages(span, pages);
    if end == ReaderError {
      return Err;
    }
    var ordered: seq<Track> := [];
    for i := 0 to |order|
      invariant ordered == Collect(span, pages, order[..i])
    {
      var track := tracks[order[i]];
      CollectNext(span, pages, order, i);
      if |track.pages| != 0 {
        track := TitleTrack(track, |ordered| + 1);
        ordered := ordered + [track];
      }
    }
    assert order[..|order|] == order;
    r := Ok(ordered);
  }

  // ---------------------------------------------------------------- properties

  /** Two streams whose pages agree serial by serial, however they are interleaved. */
  ghost predicate SamePerSerial(a: seq<Page>, b: seq<Page>) {
    forall serial :: Only(a, serial) == Only(b, serial)
  }

  /** A track apart from its title, which may be a default that counts positions. */
  function Untitled(t: Track): Track {
    t.(title := "")
  }

  predicate HasOwnTitle(t: Track) {
    t.title != "" && !StartsWith(t.title, "serial-")
  }

  lemma {:induction false} OrderHolds(pages: seq<Page>, serial: nat)
    ensures serial in Order(pages) <==> Only(pages, serial) != []
    decreases |pages|
  {
    if pages != [] {
      OrderHolds(pages[..|pages| - 1], serial);
    }
  }

  lemma {:induction false} OrderDistinct(pages: seq<Page>)
    ensures forall i, j :: 0 <= i < j < |Order(pages)| ==> Order(pages)[i] != Order(pages)[j]
    decreases |pages|
  {
    if pages != [] {
      OrderDistinct(pages[..|pages| - 1]);
    }
  }

  /** The track of serial `s` at output position `k` comes from position `i` of the order. */
  predicate ComesFrom(span: Span, pages: seq<Page>, order: seq<nat>, i: nat, t: Track) {
    && i < |order|
    && EntryOf(span, pages, order[i]).track.pages != []
    && Untitled(t) == Untitled(EntryOf(span, pages, order[i]).track)
    && (HasOwnTitle(EntryOf(span, pages, order[i]).track) ==> t == EntryOf(span, pages, order[i]).track)
  }

  lemma {:induction false} FoldSerial(span: Span, serial: nat, pages: seq<Page>)
    ensures Fold(span, serial, pages).track.serial == serial
    decreases |pages|
  {
    if pages != [] {
      FoldSerial(span, serial, pages[..|pages| - 1]);
      var e, p := Fold(span, serial, pages[..|pages| - 1]), pages[|pages| - 1];
      if p.kind.Tags? && p.kind.tags.Some? {
        CommentsKeep(e.track, p.kind.tags.value.comments);
      }
    }
  }

  lemma {:induction false} CommentsKeep(t: Track, comments: seq<Comment>)
    ensures var u := ApplyComments(t, comments);
            u.serial == t.serial && u.header == t.header && u.pages == t.pages && u.runtime == t.runtime
    decreases |comments|
  {
    if comments != [] {
      CommentsKeep(t, comments[..|comments| - 1]);
    }
  }

  lemma ComesFromLonger(span: Span, pages: seq<Page>, order: seq<nat>, n: nat, i: nat, t: Track)
    requires n <= |order| && ComesFrom(span, pages, order[..n], i, t)
    ensures ComesFrom(span, pages, order, i, t)
  {
    assert order[..n][i] == order[i];
  }

  /** Every output track comes from an entry with pages, and later tracks from later positions. */
  lemma {:induction false} CollectSound(span: Span, pages: seq<Page>, order: seq<nat>) returns (from: seq<nat>)
    ensures |from| == |Collect(span, pages, order)|
    ensures forall k :: 0 <= k < |from| ==> ComesFrom(span, pages, order, from[k], Collect(span, pages, order)[k])
    ensures forall k, l :: 0 <= k < l < |from| ==> from[k] < from[l]
    decreases |order|
  {
    if order == [] {
      from := [];
    } else {
      var n := |order| - 1;
      var rest, all := Collect(span, pages, order[..n]), Collect(span, pages, order);
      from := CollectSound(span, pages, order[..n]);
      forall k | 0 <= k < |from|
        ensures ComesFrom(span, pages, order, from[k], rest[k])
      {
        ComesFromLonger(span, pages, order, n, from[k], rest[k]);
      }
      if all != rest {
        LastCollected(span, pages, order);
        from := from + [n];
      }
    }
  }

  lemma LastCollected(span: Span, pages: seq<Page>, order: seq<nat>)
    requires order != [] && Collect(span, pages, order) != Collect(span, pages, order[..|order| - 1])
    ensures var n := |order| - 1;
      var rest, all := Collect(span, pages, order[..n]), Collect(span, pages, order);
      all == rest + [all[|rest|]] && ComesFrom(span, pages, order, n, all[|rest|])
  {
  }

  /** Every entry with pages is in the output. */
  lemma {:induction false} CollectComplete(span: Span, pages: seq<Page>, order: seq<nat>, i: nat) returns (k: nat)
    requires i < |order| && EntryOf(span, pages, order[i]).track.pages != []
    ensures k < |Collect(span, pages, order)| && ComesFrom(span, pages, order, i, Collect(span, pages, order)[k])
    decreases |order|
  {
    var n := |order| - 1;
    if i == n {
      k := |Collect(span, pages, order)| - 1;
    } else {
      k := CollectComplete(span, pages, order[..n], i);
    }
  }

  /** Demultiplexing does not depend on the interleaving: every track of one playlist is in the other,
      with the same serial, header, tags, artist, vendor, pages, durations and runtime, and the same title
      if the file gave it one. */
  lemma InterleavingIndependent(span: Span, a: seq<Page>, b: seq<Page>, k: nat) returns (l: nat)
    requires SamePerSerial(a, b) && k < |Playlist(span, a)|
    ensures l < |Playlist(span, b)|
    ensures Untitled(Playlist(span, a)[k]) == Untitled(Playlist(span, b)[l])
    ensures HasOwnTitle(EntryOf(span, a, Playlist(span, a)[k].serial).track) ==>
              Playlist(span, a)[k] == Playlist(span, b)[l]
  {
    var from := CollectSound(span, a, Order(a));
    var serial := Order(a)[from[k]];
    FoldSerial(span, serial, Only(a, serial));
    OrderHolds(a, serial);
    OrderHolds(b, serial);
    var i :| 0 <= i < |Order(b)| && Order(b)[i] == serial;
    l := CollectComplete(span, b, Order(b), i);
  }

  predicate FirstPageAt(pages: seq<Page>, serial: nat, n: nat) {
    && n < |pages| && pages[n].serial == serial
    && forall m :: 0 <= m < n ==> pages[m].serial != serial
  }

  lemma {:induction false} OrderByFirstPage(pages: seq<Page>, i: nat, j: nat) returns (m: nat, n: nat)
    requires i < j < |Order(pages)|
    ensures m < n && FirstPageAt(pages, Order(pages)[i], m) && FirstPageAt(pages, Order(pages)[j], n)
    decreases |pages|
  {
    var last := |pages| - 1;
    var rest := Order(pages[..last]);
    if j < |rest| {
      m, n := OrderByFirstPage(pages[..last], i, j);
    } else {
      m := FirstPageOf(pages[..last], i);
      n := last;
      forall p | 0 <= p < last
        ensures pages[p].serial != Order(pages)[j]
      {
        SerialInOrder(pages[..last], p);
      }
    }
  }

  lemma {:induction false} FirstPageOf(pages: seq<Page>, i: nat) returns (m: nat)
    requires i < |Order(pages)|
    ensures FirstPageAt(pages, Order(pages)[i], m)
    decreases |pages|
  {
    var last := |pages| - 1;
    if i < |Order(pages[..last])| {
      m := FirstPageOf(pages[..last], i);
    } else {
      m := last;
      forall p | 0 <= p < last
        ensures pages[p].serial != Order(pages)[i]
      {
        SerialInOrder(pages[..last], p);
      }
    }
  }

  lemma {:induction false} SerialInOrder(pages: seq<Page>, p: nat)
    requires p < |pages|
    ensures pages[p].serial in Order(pages)
    decreases |pages|
  {
    if p < |pages| - 1 {
      SerialInOrder(pages[..|pages| - 1], p);
    }
  }

  /** Tracks come out in order of their first page, and no serial twice. */
  lemma TracksInOrderOfAppearance(span: Span, pages: seq<Page>, k: nat, l: nat) returns (m: nat, n: nat)
    requires k < l < |Playlist(span, pages)|
    ensures m < n
    ensures FirstPageAt(pages, Playlist(span, pages)[k].serial, m)
    ensures FirstPageAt(pages, Playlist(span, pages)[l].serial, n)
  {
    var order := Order(pages);
    var from := CollectSound(span, pages, order);
    FoldSerial(span, order[from[k]], Only(pages, order[from[k]]));
    FoldSerial(span, order[from[l]], Only(pages, order[from[l]]));
    m, n := OrderByFirstPage(pages, from[k], from[l]);
  }

  function TotalDuration(pages: seq<BufferedPage>): nat {
    if pages == [] then 0 else TotalDuration(pages[..|pages| - 1]) + pages[|pages| - 1].duration
  }

  predicate RuntimeAgrees(t: Track) {
    t.runtime == TotalDuration(t.pages)
  }

  /** The track kept its pages and runtime, or got one page and its duration. */
  predicate Extends(t: Track, u: Track) {
    || (u.pages == t.pages && u.runtime == t.runtime)
    || (u.pages != [] && var n := |u.pages| - 1;
        u.pages[..n] == t.pages && u.runtime == t.runtime + u.pages[n].duration)
  }

  lemma ExtendedRuntime(t: Track, u: Track)
    requires RuntimeAgrees(t) && Extends(t, u)
    ensures RuntimeAgrees(u)
  {
  }

  lemma TagsExtend(t: Track, tags: OpusTags)
    ensures Extends(t, ApplyTags(t, tags))
  {
    CommentsKeep(t, tags.comments);
  }

  lemma StepExtends(span: Span, e: Entry, p: Page)
    ensures Extends(e.track, Step(span, e, p).track)
  {
    match p.kind {
      case Head(_) =>
      case Tags(tags) =>
        if tags.Some? {
          TagsExtend(e.track, tags.value);
        }
      case Audio =>
        if e.track.header.Some? {
          var page :=
            BufferedPage(p.payload, PageDuration(span, e.track.header.value, p.granule, e.lastGranule), p.granule);
          assert Step(span, e, p).track.pages == e.track.pages + [page];
        }
    }
  }

  lemma {:induction false} RuntimeOfFold(span: Span, serial: nat, pages: seq<Page>)
    ensures RuntimeAgrees(Fold(span, serial, pages).track)
    decreases |pages|
  {
    if pages != [] {
      var before := pages[..|pages| - 1];
      RuntimeOfFold(span, serial, before);
      var e := Fold(span, serial, before);
      StepExtends(span, e, pages[|pages| - 1]);
      ExtendedRuntime(e.track, Step(span, e, pages[|pages| - 1]).track);
    }
  }

  /** Every track of a playlist has pages, and its runtime is the sum of their durations. */
  lemma RuntimeIsSum(span: Span, pages: seq<Page>, k: nat)
    requires k < |Playlist(span, pages)|
    ensures var t := Playlist(span, pages)[k]; t.pages != [] && t.runtime == TotalDuration(t.pages)
  {
    var order := Order(pages);
    var from := CollectSound(span, pages, order);
    RuntimeOfFold(span, order[from[k]], Only(pages, order[from[k]]));
  }

  /** The audio pages after the first page with a usable header. */
  function Playable(pages: seq<Page>): seq<Page> {
    if pages == [] then []
    else
      var rest, p := Playable(pages[..|pages| - 1]), pages[|pages| - 1];
      if p.kind.Audio? && HeaderSeen(pages[..|pages| - 1]) then rest + [p] else rest
  }

  predicate HeaderSeen(pages: seq<Page>) {
    exists i :: 0 <= i < |pages| && pages[i].kind.Head? && pages[i].kind.header.Some?
  }

  /** A track buffers exactly the playable pages of its serial, in order. */
  lemma {:induction false} BuffersPlayablePages(span: Span, serial: nat, pages: seq<Page>)
    ensures var t := Fold(span, serial, pages).track;
            && (t.header.Some? <==> HeaderSeen(pages))
            && |t.pages| == |Playable(pages)|
            && forall i :: 0 <= i < |t.pages| ==>
                 t.pages[i].payload == Playable(pages)[i].payload && t.pages[i].granule == Playable(pages)[i].granule
    decreases |pages|
  {
    if pages != [] {
      var n := |pages| - 1;
      BuffersPlayablePages(span, serial, pages[..n]);
      var e, p := Fold(span, serial, pages[..n]), pages[n];
      SeenStep(pages, n);
      if p.kind.Tags? && p.kind.tags.Some? {
        CommentsKeep(e.track, p.kind.tags.value.comments);
      }
    }
  }

  lemma SeenStep(pages: seq<Page>, n: nat)
    requires n + 1 == |pages|
    ensures HeaderSeen(pages) <==> HeaderSeen(pages[..n]) || (pages[n].kind.Head? && pages[n].kind.header.Some?)
  {
    if HeaderSeen(pages[..n]) {
      var i :| 0 <= i < n && pages[..n][i].kind.Head? && pages[..n][i].kind.header.Some?;
      assert pages[i].kind.Head?;
    }
    if HeaderSeen(pages) {
      var i :| 0 <= i < |pages| && pages[i].kind.Head? && pages[i].kind.header.Some?;
      assert i < n ==> pages[..n][i].kind.Head?;
    }
  }
}
