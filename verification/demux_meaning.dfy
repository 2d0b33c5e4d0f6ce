/** What the tags and durations of a track are, told from the pages of its serial alone. */
module DemuxMeaning {
  import opened Options
  import opened Seqs
  import opened Text
  import opened Demux

  // ---------------------------------------------------------------------- tags

  /** The key is the given lower-case word, in any mixture of cases. */
  predicate Named(c: Comment, word: string) {
    |c.key| == |word| &&
    forall i :: 0 <= i < |word| ==> c.key[i] == word[i] || c.key[i] as int == word[i] as int - 32
  }

  predicate LowerCase(word: string) {
    forall i :: 0 <= i < |word| ==> 'a' <= word[i] <= 'z'
  }

  lemma LowerMeans(c: Comment, word: string)
    requires LowerCase(word)
    ensures Lower(c.key) == word <==> Named(c, word)
  {
    if Lower(c.key) == word {
      forall i | 0 <= i < |word|
        ensures c.key[i] == word[i] || c.key[i] as int == word[i] as int - 32
      {
        assert Lower(c.key)[i] == word[i];
      }
    }
  }

  /** Comment `i` is the last of that name. */
  predicate LastNamed(comments: seq<Comment>, word: string, i: nat) {
    && i < |comments|
    && Named(comments[i], word)
    && forall j :: i < j < |comments| ==> !Named(comments[j], word)
  }

  predicate NoneNamed(comments: seq<Comment>, word: string) {
    forall i :: 0 <= i < |comments| ==> !Named(comments[i], word)
  }

  /** `value` is the last comment of that name, or `otherwise` if there is none. */
  ghost predicate LastValue(comments: seq<Comment>, word: string, otherwise: string, value: string) {
    && (NoneNamed(comments, word) ==> value == otherwise)
    && (forall i: nat :: LastNamed(comments, word, i) ==> value == comments[i].value)
  }

  lemma LastValueSnoc(comments: seq<Comment>, c: Comment, word: string, otherwise: string, value: string)
    requires LastValue(comments, word, otherwise, value)
    ensures LastValue(comments + [c], word, otherwise, if Named(c, word) then c.value else value)
  {
    var all, value' := comments + [c], if Named(c, word) then c.value else value;
    assert all[|comments|] == c;
    assert forall i :: 0 <= i < |comments| ==> all[i] == comments[i];
    if NoneNamed(all, word) {
      assert !Named(all[|comments|], word);
      assert NoneNamed(comments, word) by {
        forall i | 0 <= i < |comments|
          ensures !Named(comments[i], word)
        {
          assert !Named(all[i], word);
        }
      }
    }
    forall i: nat | LastNamed(all, word, i)
      ensures value' == all[i].value
    {
      LastNamedEarlier(comments, c, word, i);
    }
  }

  lemma LastNamedEarlier(comments: seq<Comment>, c: Comment, word: string, i: nat)
    requires LastNamed(comments + [c], word, i)
    ensures if Named(c, word) then i == |comments| else LastNamed(comments, word, i)
  {
    var all := comments + [c];
    assert all[|comments|] == c;
    if !Named(c, word) {
      forall j | i < j < |comments|
        ensures !Named(comments[j], word)
      {
        assert !Named(all[j], word);
      }
    }
  }

  /** The value of the last comment of that name, found by recursion. */
  function LastOf(comments: seq<Comment>, word: string, otherwise: string): string {
    if comments == [] then otherwise
    else
      var c := comments[|comments| - 1];
      if Named(c, word) then c.value else LastOf(comments[..|comments| - 1], word, otherwise)
  }

  lemma {:induction false} LastOfMeans(comments: seq<Comment>, word: string, otherwise: string)
    ensures LastValue(comments, word, otherwise, LastOf(comments, word, otherwise))
    decreases |comments|
  {
    if comments != [] {
      var front, c := comments[..|comments| - 1], comments[|comments| - 1];
      LastOfMeans(front, word, otherwise);
      LastValueSnoc(front, c, word, otherwise, LastOf(front, word, otherwise));
      assert front + [c] == comments;
    }
  }

  lemma LastOfSnoc(comments: seq<Comment>, c: Comment, word: string, otherwise: string)
    ensures LastOf(comments + [c], word, otherwise)
         == if Named(c, word) then c.value else LastOf(comments, word, otherwise)
  {
    assert (comments + [c])[..|comments|] == comments;
  }

  predicate TitleAndArtist(comments: seq<Comment>, title: string, artist: string, t: Track) {
    t.title == LastOf(comments, "title", title) && t.artist == LastOf(comments, "artist", artist)
  }

  lemma CommentMeans(t: Track, before: seq<Comment>, c: Comment, title: string, artist: string)
    requires TitleAndArtist(before, title, artist, t)
    ensures TitleAndArtist(before + [c], title, artist, ApplyComment(t, c))
  {
    LastOfSnoc(before, c, "title", title);
    LastOfSnoc(before, c, "artist", artist);
    LowerMeans(c, "title");
    LowerMeans(c, "artist");
    NotBoth(c);
  }

  /** One list of comments on top of the ones before. */
  lemma {:induction false} CommentsMean(
    t: Track, before: seq<Comment>, comments: seq<Comment>, title: string, artist: string)
    requires TitleAndArtist(before, title, artist, t)
    ensures TitleAndArtist(before + comments, title, artist, ApplyComments(t, comments))
    decreases |comments|
  {
    if comments == [] {
      assert before + comments == before;
    } else {
      var front, c := comments[..|comments| - 1], comments[|comments| - 1];
      CommentsMean(t, before, front, title, artist);
      CommentMeans(ApplyComments(t, front), before + front, c, title, artist);
      Regroup(before, front, [c]);
      assert front + [c] == comments;
    }
  }

  lemma {:induction false} CommentsKeepVendor(t: Track, comments: seq<Comment>)
    ensures ApplyComments(t, comments).vendor == t.vendor
    decreases |comments|
  {
    if comments != [] {
      CommentsKeepVendor(t, comments[..|comments| - 1]);
    }
  }

  lemma NotBoth(c: Comment)
    ensures !(Named(c, "title") && Named(c, "artist"))
  {
  }

  /** The comments of all the tag pages of a serial, in order. */
  function AllComments(pages: seq<Page>): seq<Comment> {
    if pages == [] then []
    else
      var k := pages[|pages| - 1].kind;
      AllComments(pages[..|pages| - 1]) + if k.Tags? && k.tags.Some? then k.tags.value.comments else []
  }

  function AllVendors(pages: seq<Page>): seq<string> {
    if pages == [] then []
    else
      var k := pages[|pages| - 1].kind;
      AllVendors(pages[..|pages| - 1]) + if k.Tags? && k.tags.Some? then [k.tags.value.vendor] else []
  }

  /** The tags of the last tag page that parsed. */
  function LastTags(pages: seq<Page>): Option<OpusTags> {
    if pages == [] then None
    else
      var k := pages[|pages| - 1].kind;
      if k.Tags? && k.tags.Some? then k.tags else LastTags(pages[..|pages| - 1])
  }

  /** The first vendor that is not empty, or the empty text. */
  predicate FirstVendor(vendors: seq<string>, vendor: string) {
    if vendor == "" then forall i :: 0 <= i < |vendors| ==> vendors[i] == ""
    else exists i :: 0 <= i < |vendors| && vendors[i] == vendor && forall j :: 0 <= j < i ==> vendors[j] == ""
  }

  lemma FirstVendorSnoc(vendors: seq<string>, v: string, vendor: string)
    requires FirstVendor(vendors, vendor)
    ensures FirstVendor(vendors + [v], if vendor == "" then v else vendor)
  {
    var all := vendors + [v];
    assert all[|vendors|] == v;
    if vendor != "" {
      var i :| 0 <= i < |vendors| && vendors[i] == vendor && forall j :: 0 <= j < i ==> vendors[j] == "";
      assert all[i] == vendor && forall j :: 0 <= j < i ==> all[j] == "";
    }
  }

  predicate TagsMean(serial: nat, pages: seq<Page>, t: Track) {
    && TitleAndArtist(AllComments(pages), "serial-" + Decimal(serial), "", t)
    && FirstVendor(AllVendors(pages), t.vendor)
    && t.tags == LastTags(pages)
  }

  lemma TagPageMeans(span: Span, serial: nat, pages: seq<Page>, e: Entry, p: Page)
    requires TagsMean(serial, pages, e.track) && p.kind.Tags? && p.kind.tags.Some?
    ensures TagsMean(serial, pages + [p], Step(span, e, p).track)
  {
    var tags, all := p.kind.tags.value, pages + [p];
    assert all[..|pages|] == pages;
    CommentsMean(e.track, AllComments(pages), tags.comments, "serial-" + Decimal(serial), "");
    CommentsKeepVendor(e.track, tags.comments);
    FirstVendorSnoc(AllVendors(pages), tags.vendor, e.track.vendor);
  }

  lemma OtherPageMeans(span: Span, serial: nat, pages: seq<Page>, e: Entry, p: Page)
    requires TagsMean(serial, pages, e.track) && !(p.kind.Tags? && p.kind.tags.Some?)
    ensures TagsMean(serial, pages + [p], Step(span, e, p).track)
  {
    var all := pages + [p];
    assert all[..|pages|] == pages;
    assert AllComments(pages) + [] == AllComments(pages) && AllVendors(pages) + [] == AllVendors(pages);
  }

  /**
   * Over all the pages of a serial: title and artist are the last comments of those names in any case of
   * letters, or the default title and no artist; the vendor is the first one given; the tags are the last.
   */
  lemma TagsOfSerial(span: Span, serial: nat, pages: seq<Page>)
    ensures var t := Fold(span, serial, pages).track;
      && LastValue(AllComments(pages), "title", "serial-" + Decimal(serial), t.title)
      && LastValue(AllComments(pages), "artist", "", t.artist)
      && FirstVendor(AllVendors(pages), t.vendor)
      && t.tags == LastTags(pages)
  {
    FoldTags(span, serial, pages);
    LastOfMeans(AllComments(pages), "title", "serial-" + Decimal(serial));
    LastOfMeans(AllComments(pages), "artist", "");
  }

  lemma {:induction false} FoldTags(span: Span, serial: nat, pages: seq<Page>)
    ensures TagsMean(serial, pages, Fold(span, serial, pages).track)
    decreases |pages|
  {
    if pages != [] {
      var before, p := pages[..|pages| - 1], pages[|pages| - 1];
      FoldTags(span, serial, before);
      assert pages == before + [p];
      if p.kind.Tags? && p.kind.tags.Some? {
        TagPageMeans(span, serial, before, Fold(span, serial, before), p);
      } else {
        OtherPageMeans(span, serial, before, Fold(span, serial, before), p);
      }
    }
  }

  // -------------------------------------------------------------------- titles

  /** Titles that are empty or look like the default become the position in the playlist, counted from one. */
  lemma {:induction false} TitlesNumbered(span: Span, pages: seq<Page>, order: seq<nat>, k: nat) returns (i: nat)
    requires k < |Collect(span, pages, order)|
    ensures i < |order|
    ensures var t, u := Collect(span, pages, order)[k], EntryOf(span, pages, order[i]).track;
      && t == u.(title := t.title)
      && t.title == if u.title == "" || "serial-" <= u.title then "Track " + Decimal(k + 1) else u.title
    decreases |order|
  {
    var n := |order| - 1;
    var rest := Collect(span, pages, order[..n]);
    if k < |rest| {
      i := TitlesNumbered(span, pages, order[..n], k);
      assert order[..n][i] == order[i];
    } else {
      i := n;
    }
  }

  /** The track with the tags of its serial and, for want of a title, its number. */
  lemma PlaylistTitles(span: Span, pages: seq<Page>, k: nat)
    requires k < |Playlist(span, pages)|
    ensures var t := Playlist(span, pages)[k];
      var u := EntryOf(span, pages, t.serial).track;
      && LastValue(AllComments(Only(pages, t.serial)), "title", "serial-" + Decimal(t.serial), u.title)
      && LastValue(AllComments(Only(pages, t.serial)), "artist", "", u.artist)
      && FirstVendor(AllVendors(Only(pages, t.serial)), u.vendor)
      && t == u.(title := t.title)
      && t.title == if u.title == "" || "serial-" <= u.title then "Track " + Decimal(k + 1) else u.title
  {
    var order := Order(pages);
    var i := TitlesNumbered(span, pages, order, k);
    FoldSerial(span, order[i], Only(pages, order[i]));
    TagsOfSerial(span, order[i], Only(pages, order[i]));
  }

  // ----------------------------------------------------------------- durations

  predicate HeaderAt(pages: seq<Page>, i: int)
    requires 0 <= i < |pages|
  {
    pages[i].kind.Head? && pages[i].kind.header.Some?
  }

  /** Page `h` is the latest valid header among the first `n` pages. */
  predicate LatestHeader(pages: seq<Page>, n: nat, h: int) {
    0 <= h < n <= |pages| && HeaderAt(pages, h) && forall j :: h < j < n ==> !HeaderAt(pages, j)
  }

  lemma LatestInPrefix(pages: seq<Page>, m: nat, n: nat, h: int)
    requires n <= m <= |pages|
    ensures LatestHeader(pages[..m], n, h) <==> LatestHeader(pages, n, h)
  {
    if LatestHeader(pages[..m], n, h) {
      assert pages[..m][h] == pages[h];
      forall j | h < j < n
        ensures !HeaderAt(pages, j)
      {
        assert !HeaderAt(pages[..m], j);
      }
    }
    if LatestHeader(pages, n, h) {
      assert pages[..m][h] == pages[h];
      forall j | h < j < n
        ensures !HeaderAt(pages[..m], j)
      {
        assert !HeaderAt(pages, j);
      }
    }
  }

  /** The header a track holds is that of the latest valid header page. */
  lemma {:induction false} HeaderInForce(span: Span, serial: nat, pages: seq<Page>, h: int)
    requires LatestHeader(pages, |pages|, h)
    ensures Fold(span, serial, pages).track.header == pages[h].kind.header
    decreases |pages|
  {
    var n := |pages| - 1;
    if h < n {
      assert !HeaderAt(pages, n);
      HeaderStays(pages, n, h);
      HeaderInForce(span, serial, pages[..n], h);
      var e, p := Fold(span, serial, pages[..n]), pages[n];
      if p.kind.Tags? && p.kind.tags.Some? {
        CommentsKeep(e.track, p.kind.tags.value.comments);
      }
    }
  }

  lemma HeaderStays(pages: seq<Page>, n: nat, h: int)
    requires n + 1 == |pages| && LatestHeader(pages, n + 1, h) && h < n
    ensures LatestHeader(pages[..n], n, h) && pages[..n][h] == pages[h]
  {
    LatestInPrefix(pages, n, n, h);
  }

  /** The positions of the playable pages: audio after a valid header. */
  function PlayableAt(pages: seq<Page>): (r: seq<nat>)
    ensures forall j :: 0 <= j < |r| ==> r[j] < |pages|
  {
    if pages == [] then []
    else
      var n := |pages| - 1;
      PlayableAt(pages[..n]) + if pages[n].kind.Audio? && HeaderSeen(pages[..n]) then [n] else []
  }

  /** What a playable page lasts, given the granule position of the playable page before it. */
  ghost predicate Lasts(span: Span, pages: seq<Page>, i: nat, previous: nat, duration: nat)
    requires i < |pages|
  {
    && (exists h :: LatestHeader(pages, i, h))
    && forall h :: LatestHeader(pages, i, h) ==>
      var rate := pages[h].kind.header.value.sampleRate;
      duration == if pages[i].granule <= previous then 20_000_000
                  else span(pages[i].granule - previous, if rate == 0 then 48_000 else rate)
  }

  /** The granule position of the playable page before the `j`-th, 0 before the first. */
  function Previous(pages: seq<Page>, j: nat): nat
    requires j <= |PlayableAt(pages)|
  {
    if j == 0 then 0 else pages[PlayableAt(pages)[j - 1]].granule
  }

  lemma LastsInPrefix(span: Span, pages: seq<Page>, n: nat, i: nat, previous: nat, duration: nat)
    requires i < n <= |pages| && Lasts(span, pages[..n], i, previous, duration)
    ensures Lasts(span, pages, i, previous, duration)
  {
    var g :| LatestHeader(pages[..n], i, g);
    LatestInPrefix(pages, n, i, g);
    forall h | LatestHeader(pages, i, h)
      ensures LatestHeader(pages[..n], i, h) && pages[..n][h] == pages[h]
    {
      LatestInPrefix(pages, n, i, h);
    }
  }

  lemma PlayableInPrefix(pages: seq<Page>, n: nat, j: nat)
    requires n + 1 == |pages| && j <= |PlayableAt(pages[..n])|
    ensures Previous(pages, j) == Previous(pages[..n], j)
    ensures j < |PlayableAt(pages[..n])| ==> PlayableAt(pages)[j] == PlayableAt(pages[..n])[j]
  {
  }

  lemma {:induction false} LastGranule(span: Span, serial: nat, pages: seq<Page>)
    ensures var e := Fold(span, serial, pages);
      && |e.track.pages| == |PlayableAt(pages)|
      && e.lastGranule == Previous(pages, |PlayableAt(pages)|)
      && (e.track.header.Some? <==> HeaderSeen(pages))
    decreases |pages|
  {
    BuffersPlayablePages(span, serial, pages);
    if pages != [] {
      var n := |pages| - 1;
      LastGranule(span, serial, pages[..n]);
      PlayableInPrefix(pages, n, |PlayableAt(pages[..n])|);
      if pages[n].kind.Tags? && pages[n].kind.tags.Some? {
        CommentsKeep(Fold(span, serial, pages[..n]).track, pages[n].kind.tags.value.comments);
      }
    }
  }

  lemma {:induction false} LatestExists(pages: seq<Page>, n: nat)
    requires n <= |pages| && HeaderSeen(pages[..n])
    ensures exists h :: LatestHeader(pages, n, h)
    decreases n
  {
    var i :| 0 <= i < n && pages[..n][i].kind.Head? && pages[..n][i].kind.header.Some?;
    if HeaderAt(pages, n - 1) {
      assert LatestHeader(pages, n, n - 1);
    } else {
      assert pages[..n - 1][i] == pages[i];
      LatestExists(pages, n - 1);
      var h :| LatestHeader(pages, n - 1, h);
      assert LatestHeader(pages, n, h);
    }
  }

  lemma NewPageLasts(span: Span, serial: nat, pages: seq<Page>, n: nat)
    requires n + 1 == |pages| && pages[n].kind.Audio? && HeaderSeen(pages[..n])
    ensures var e := Fold(span, serial, pages[..n]);
      && e.track.header.Some?
      && Lasts(span, pages, n, e.lastGranule,
               PageDuration(span, e.track.header.value, pages[n].granule, e.lastGranule))
  {
    LastGranule(span, serial, pages[..n]);
    LatestExists(pages, n);
    forall h | LatestHeader(pages, n, h)
      ensures Fold(span, serial, pages[..n]).track.header == pages[h].kind.header
    {
      LatestInPrefix(pages, n, n, h);
      HeaderInForce(span, serial, pages[..n], h);
    }
  }

  /**
   * The `j`-th buffered page of a serial lasts 20 ms if its granule position is not above that of the
   * playable page before it, and otherwise the span of the difference at the rate of the latest header,
   * 48 kHz if that gives none.
   */
  lemma {:induction false} DurationsOfSerial(span: Span, serial: nat, pages: seq<Page>, j: nat)
    requires j < |Fold(span, serial, pages).track.pages|
    ensures |Fold(span, serial, pages).track.pages| == |PlayableAt(pages)|
    ensures Lasts(span, pages, PlayableAt(pages)[j], Previous(pages, j),
                  Fold(span, serial, pages).track.pages[j].duration)
    decreases |pages|
  {
    LastGranule(span, serial, pages);
    var n := |pages| - 1;
    var e := Fold(span, serial, pages[..n]);
    LastGranule(span, serial, pages[..n]);
    PlayableInPrefix(pages, n, if j <= |e.track.pages| then j else 0);
    if j < |e.track.pages| {
      DurationsOfSerial(span, serial, pages[..n], j);
      LastsInPrefix(span, pages, n, PlayableAt(pages)[j], Previous(pages, j), e.track.pages[j].duration);
      PagesGrow(span, e, pages[n], j);
    } else {
      NewPageLasts(span, serial, pages, n);
    }
  }

  lemma PagesGrow(span: Span, e: Entry, p: Page, j: nat)
    requires j < |e.track.pages|
    ensures j < |Step(span, e, p).track.pages| && Step(span, e, p).track.pages[j] == e.track.pages[j]
  {
    if p.kind.Tags? && p.kind.tags.Some? {
      CommentsKeep(e.track, p.kind.tags.value.comments);
    }
  }
}
