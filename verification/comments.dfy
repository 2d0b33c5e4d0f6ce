/** When the comments of a now-playing message come back as they were sent. */
module PlaylistComments {
  import opened Options
  import opened Text
  import opened PlaylistMessage
  import Demux

  type Comment = Demux.Comment

  function Pairs(comments: seq<Comment>): seq<Pair> {
    seq(|comments|, i requires 0 <= i < |comments| => Pair(Clean(comments[i].key), Some(Clean(comments[i].value))))
  }

  predicate Plain(s: string) {
    Free(s, ',') && Free(s, '=')
  }

  /** No key or value holds a comma or an equals sign. */
  predicate Separable(comments: seq<Comment>) {
    forall i :: 0 <= i < |comments| ==> Plain(Clean(comments[i].key)) && Plain(Clean(comments[i].value))
  }

  predicate EndsVisible(comments: seq<Comment>) {
    comments != [] ==> var v := Clean(comments[|comments| - 1].value); v != [] ==> !IsSpace(v[|v| - 1])
  }

  lemma PairParsed(k: string, v: string)
    requires Free(k, '=') && Free(v, '=')
    ensures ToPair(k + "=" + v) == Pair(k, Some(v))
  {
    SplitFirst(k, '=', v);
    SplitLast(v, '=');
  }

  lemma {:induction false} TextsParsed(comments: seq<Comment>)
    requires Separable(comments)
    ensures ToPairs(CommentTexts(comments)) == Pairs(comments)
    ensures AllFree(CommentTexts(comments), ',')
  {
    if comments != [] {
      var c, rest := comments[0], comments[1..];
      PairParsed(Clean(c.key), Clean(c.value));
      TextsParsed(rest);
      assert CommentTexts(comments) == [CommentText(c)] + CommentTexts(rest);
      assert Pairs(comments) == [Pair(Clean(c.key), Some(Clean(c.value)))] + Pairs(rest);
    }
  }

  lemma TrimEndText(front: seq<string>, k: string, v: string)
    ensures TrimEnd(Join(front + [k + "=" + v], ',')) == Join(front + [k + "=" + TrimEnd(v)], ',')
  {
    var last, trimmed := k + "=" + v, k + "=" + TrimEnd(v);
    TrimEndStops(k, '=', v);
    if front == [] {
      assert front + [last] == [last] && front + [trimmed] == [trimmed];
    } else {
      JoinSnoc(front, last, ',');
      JoinSnoc(front, trimmed, ',');
      var start := Join(front, ',') + [','] + k;
      TrimEndStops(start, '=', v);
      assert Join(front, ',') + [','] + last == start + ['='] + v;
      assert Join(front, ',') + [','] + trimmed == start + ['='] + TrimEnd(v);
    }
  }

  lemma CleanPrefix(s: string, p: string)
    requires p <= Clean(s)
    ensures Clean(p) == p
  {
    assert forall i :: 0 <= i < |p| ==> p[i] == Clean(s)[i];
  }

  /** The comments with the trailing white space of the last value gone. */
  function Trimmed(comments: seq<Comment>): seq<Comment> {
    if comments == [] then []
    else
      var last := comments[|comments| - 1];
      comments[..|comments| - 1] + [Demux.Comment(last.key, TrimEnd(Clean(last.value)))]
  }

  lemma TrimmedTexts(comments: seq<Comment>)
    requires comments != []
    ensures TrimEnd(Join(CommentTexts(comments), ',')) == Join(CommentTexts(Trimmed(comments)), ',')
  {
    var n, last := |comments| - 1, comments[|comments| - 1];
    var front, v := CommentTexts(comments[..n]), Clean(last.value);
    TrimEndPrefix(v);
    CleanPrefix(last.value, TrimEnd(v));
    TrimEndText(front, Clean(last.key), v);
    assert CommentTexts(comments) == front + [Clean(last.key) + "=" + v];
    assert CommentTexts(Trimmed(comments)) == front + [Clean(last.key) + "=" + TrimEnd(v)];
  }

  lemma TrimmedSeparable(comments: seq<Comment>)
    requires Separable(comments)
    ensures Separable(Trimmed(comments))
  {
    if comments != [] {
      var v := comments[|comments| - 1].value;
      TrimEndPrefix(Clean(v));
      CleanPrefix(v, TrimEnd(Clean(v)));
    }
  }

  lemma ReceivedSeparable(comments: seq<Comment>)
    requires Separable(comments)
    ensures Received(comments) == Pairs(Trimmed(comments))
  {
    if comments == [] {
      assert Split("", ',') == [""] && [""][1..] == [];
    } else {
      TrimmedTexts(comments);
      TrimmedSeparable(comments);
      TextsParsed(Trimmed(comments));
      SplitJoin(CommentTexts(Trimmed(comments)), ',');
    }
  }

  // What the parser returns never holds a separator.

  lemma {:induction false} SplitFree(s: string, c: char)
    ensures AllFree(Split(s, c), c)
  {
    if s != [] {
      SplitFree(s[1..], c);
    }
  }

  lemma {:induction false} SplitKeepsFree(s: string, c: char, d: char)
    requires Free(s, d)
    ensures AllFree(Split(s, c), d)
  {
    if s != [] {
      SplitKeepsFree(s[1..], c, d);
    }
  }

  predicate PlainPair(p: Pair) {
    Plain(p.key) && (p.value.Some? ==> Plain(p.value.value))
  }

  lemma {:induction false} PairsPlain(pieces: seq<string>, k: nat)
    requires AllFree(pieces, ',') && k < |ToPairs(pieces)|
    ensures PlainPair(ToPairs(pieces)[k])
    decreases |pieces|
  {
    var rest := pieces[1..];
    if pieces[0] == "" {
      PairsPlain(rest, k);
    } else if k == 0 {
      SplitFree(pieces[0], '=');
      SplitKeepsFree(pieces[0], '=', ',');
    } else {
      PairsPlain(rest, k - 1);
    }
  }

  lemma ReceivedPlain(comments: seq<Comment>)
    requires Received(comments) == Pairs(comments)
    ensures Separable(comments)
  {
    var pieces := Split(TrimEnd(CommentsText(comments)), ',');
    SplitFree(TrimEnd(CommentsText(comments)), ',');
    forall i | 0 <= i < |comments|
      ensures Plain(Clean(comments[i].key)) && Plain(Clean(comments[i].value))
    {
      PairsPlain(pieces, i);
    }
  }

  lemma {:induction false} TrimEndVisible(s: string)
    ensures TrimEnd(s) == s <==> (s != [] ==> !IsSpace(s[|s| - 1]))
  {
    if s != [] && IsSpace(s[|s| - 1]) {
      TrimEndPrefix(s[..|s| - 1]);
    }
  }

  lemma TrimmedLast(comments: seq<Comment>)
    requires comments != []
    ensures var n := |comments| - 1;
      && |Pairs(Trimmed(comments))| == n + 1
      && Pairs(Trimmed(comments))[..n] == Pairs(comments)[..n]
      && Pairs(Trimmed(comments))[n] == Pairs(comments)[n].(value := Some(TrimEnd(Clean(comments[n].value))))
  {
    var v := comments[|comments| - 1].value;
    TrimEndPrefix(Clean(v));
    CleanPrefix(v, TrimEnd(Clean(v)));
  }

  lemma TrimmedSameIff(comments: seq<Comment>)
    ensures Pairs(Trimmed(comments)) == Pairs(comments) <==> EndsVisible(comments)
  {
    if comments != [] {
      var n := |comments| - 1;
      var sent, kept := Pairs(comments), Pairs(Trimmed(comments));
      TrimmedLast(comments);
      TrimEndVisible(Clean(comments[n].value));
      assert sent == sent[..n] + [sent[n]] && kept == kept[..n] + [kept[n]];
    }
  }

  /**
   * The page shows the comments as they were sent (line breaks and bars replaced) exactly when no
   * key or value holds a separator and the last value does not end in white space.
   */
  lemma CommentsSurviveIff(comments: seq<Comment>)
    ensures Received(comments) == Pairs(comments) <==> Separable(comments) && EndsVisible(comments)
  {
    if Received(comments) == Pairs(comments) {
      ReceivedPlain(comments);
    }
    if Separable(comments) {
      ReceivedSeparable(comments);
      TrimmedSameIff(comments);
    }
  }

  /** A value with a comma is one that does not come back. */
  lemma CommaIsLost()
    ensures Received([Demux.Comment("a", "b,c=d")]) != Pairs([Demux.Comment("a", "b,c=d")])
  {
    var comments := [Demux.Comment("a", "b,c=d")];
    assert Clean(comments[0].value)[1] == ',';
    CommentsSurviveIff(comments);
  }

  /** So is one that ends in a space, though only if it is the last. */
  lemma TrailingSpaceIsLost()
    ensures Received([Demux.Comment("a", "b ")]) == [Pair("a", Some("b"))]
  {
    var comments := [Demux.Comment("a", "b ")];
    assert Clean("a") == "a" && Clean("b ") == "b " && Clean("b") == "b";
    ReceivedSeparable(comments);
    assert "b "[..1] == "b";
    assert Trimmed(comments) == [Demux.Comment("a", "b")];
  }
}
