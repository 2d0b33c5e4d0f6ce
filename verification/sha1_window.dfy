/** The other method of RFC 3174, section 6.2, which keeps sixteen words instead of eighty, agrees with the
    one modelled; on it the digest of "abc", the first example of its section 7.3, is worked out. */
module Sha1Window {
  import opened Bytes
  import opened Sha1

  // ------------------------------------------------------------ sixteen words

  /** The words of the schedule from the current step on. */
  datatype Window<T> = Window(
    w0: T, w1: T, w2: T, w3: T, w4: T, w5: T, w6: T, w7: T,
    w8: T, w9: T, w10: T, w11: T, w12: T, w13: T, w14: T, w15: T)

  datatype State = State(v: Words, w: Window<Word>)

  function OneOf<T>(a: T, b: T, c: T, d: T, i: nat): T {
    if i == 0 then a else if i == 1 then b else if i == 2 then c else d
  }

  function At<T>(w: Window<T>, i: nat): T
    requires i < 16
  {
    if i < 4 then OneOf(w.w0, w.w1, w.w2, w.w3, i)
    else if i < 8 then OneOf(w.w4, w.w5, w.w6, w.w7, i - 4)
    else if i < 12 then OneOf(w.w8, w.w9, w.w10, w.w11, i - 8)
    else OneOf(w.w12, w.w13, w.w14, w.w15, i - 12)
  }

  function Shift<T>(w: Window<T>, x: T): Window<T> {
    Window(w.w1, w.w2, w.w3, w.w4, w.w5, w.w6, w.w7, w.w8, w.w9, w.w10, w.w11, w.w12, w.w13, w.w14, w.w15, x)
  }

  function Slide(w: Window<Word>): Window<Word> {
    Shift(w, Expand(w.w13, w.w8, w.w2, w.w0))
  }

  function Advance(s: State, t: nat): State {
    if t < 80 then State(Round(s.v, t, s.w.w0), Slide(s.w)) else s
  }

  /** `n` steps from step `t` on. */
  function Iterate<S>(step: (S, nat) -> S, s: S, t: nat, n: nat): S
    decreases n
  {
    if n == 0 then s else Iterate(step, step(s, t), t + 1, n - 1)
  }

  lemma {:induction false} IterateOn<S>(step: (S, nat) -> S, s: S, t: nat, m: nat, n: nat)
    ensures Iterate(step, s, t, m + n) == Iterate(step, Iterate(step, s, t, m), t + m, n)
    decreases m
  {
    if m > 0 {
      IterateOn(step, step(s, t), t + 1, m - 1, n);
    }
  }

  lemma IterateFive<S>(step: (S, nat) -> S, s: S, t: nat)
    ensures Iterate(step, s, t, FIVE) == step(step(step(step(step(s, t), t + 1), t + 2), t + 3), t + 4)
  {
    var a, b := step(s, t), step(step(s, t), t + 1);
    assert Iterate(step, s, t, FIVE) == Iterate(step, a, t + 1, 4) == Iterate(step, b, t + 2, 3);
  }

  /** The window shows the schedule from word `t` on. */
  predicate Shows<T(==)>(w: Window<T>, words: seq<T>, t: nat) {
    forall i :: 0 <= i < 16 && t + i < |words| ==> At(w, i) == words[t + i]
  }

  lemma {:induction false} ScheduleWord(block: seq<Byte>, n: nat, t: nat)
    requires |block| == 64 && t < n <= 80
    ensures Schedule(block, n)[t] == NextWord(block, Schedule(block, n)[..t])
    decreases n
  {
    var before := Schedule(block, n - 1);
    if t < n - 1 {
      ScheduleWord(block, n - 1, t);
      assert Schedule(block, n)[..t] == before[..t];
    } else {
      assert Schedule(block, n)[..t] == before;
    }
  }

  lemma ShiftAt<T>(w: Window<T>, x: T, i: nat)
    requires i < 16
    ensures At(Shift(w, x), i) == if i < 15 then At(w, i + 1) else x
  {
  }

  lemma ShiftShows<T>(w: Window<T>, words: seq<T>, x: T, t: nat)
    requires Shows(w, words, t) && (t + 16 < |words| ==> words[t + 16] == x)
    ensures Shows(Shift(w, x), words, t + 1)
  {
    forall i | 0 <= i < 16 && t + 1 + i < |words|
      ensures At(Shift(w, x), i) == words[t + 1 + i]
    {
      ShiftAt(w, x, i);
    }
  }

  lemma ShownWords<T>(w: Window<T>, words: seq<T>, t: nat)
    requires Shows(w, words, t) && t + 16 < |words|
    ensures w.w13 == words[t + 13] && w.w8 == words[t + 8] && w.w2 == words[t + 2] && w.w0 == words[t]
  {
    assert At(w, 13) == words[t + 13] && At(w, 8) == words[t + 8];
    assert At(w, 2) == words[t + 2] && At(w, 0) == words[t];
  }

  lemma NewWord(block: seq<Byte>, words: seq<Word>, t: nat)
    requires |block| == 64 && t + 16 < |words| <= 80 && words == Schedule(block, |words|)
    ensures words[t + 16] == Expand(words[t + 13], words[t + 8], words[t + 2], words[t])
  {
    ScheduleWord(block, |words|, t + 16);
    NextIsExpanded(block, words[..t + 16], words[t + 13], words[t + 8], words[t + 2], words[t]);
  }

  lemma NextIsExpanded(block: seq<Byte>, w: seq<Word>, w3: Word, w8: Word, w14: Word, w16: Word)
    requires |block| == 64 && 16 <= |w| < 80
    requires w[|w| - 3] == w3 && w[|w| - 8] == w8 && w[|w| - 14] == w14 && w[|w| - 16] == w16
    ensures NextWord(block, w) == Expand(w3, w8, w14, w16)
  {
  }

  lemma SlideShows(block: seq<Byte>, words: seq<Word>, w: Window<Word>, t: nat)
    requires |block| == 64 && t < |words| <= 80 && words == Schedule(block, |words|) && Shows(w, words, t)
    ensures Shows(Slide(w), words, t + 1)
  {
    if t + 16 < |words| {
      NewWord(block, words, t);
      ShownWords(w, words, t);
    }
    ShiftShows(w, words, Expand(w.w13, w.w8, w.w2, w.w0), t);
  }

  /** The state at step `t`: the rounds so far and the words from there on. */
  predicate Follows(words: seq<Word>, h: Words, s: State, t: nat)
    requires t <= |words| == 80
  {
    s.v == Rounds(h, words, t) && Shows(s.w, words, t)
  }

  lemma AdvanceFollows(block: seq<Byte>, words: seq<Word>, h: Words, s: State, t: nat)
    requires |block| == 64 && t < |words| == 80 && words == Schedule(block, |words|) && Follows(words, h, s, t)
    ensures Follows(words, h, Advance(s, t), t + 1)
  {
    SlideShows(block, words, s.w, t);
    assert At(s.w, 0) == words[t];
  }

  lemma EndsWith(block: seq<Byte>, words: seq<Word>, h: Words, s: State)
    requires |block| == 64 && |words| == STEPS && words == Schedule(block, |words|) && Follows(words, h, s, |words|)
    ensures Compress(h, block) == AddWords(h, s.v)
  {
  }

  lemma {:induction false} IterateCompresses(block: seq<Byte>, words: seq<Word>, h: Words, s: State, t: nat, n: nat)
    requires |block| == 64 && t + n == |words| == 80 && words == Schedule(block, |words|) && Follows(words, h, s, t)
    ensures Compress(h, block) == AddWords(h, Iterate(Advance, s, t, n).v)
    decreases n
  {
    if n == 0 {
      EndsWith(block, words, h, s);
    } else {
      AdvanceFollows(block, words, h, s, t);
      IterateCompresses(block, words, h, Advance(s, t), t + 1, n - 1);
    }
  }

  /** The first window: the sixteen words of the block. */
  predicate Loads(w: Window<Word>, block: seq<Byte>) {
    |block| == 64 && forall i :: 0 <= i < 16 ==> At(w, i) == WordAt(block, 4 * i)
  }

  lemma BeginsWith(block: seq<Byte>, words: seq<Word>, h: Words, w: Window<Word>)
    requires Loads(w, block) && |words| == 80 && words == Schedule(block, |words|)
    ensures Follows(words, h, State(h, w), 0)
  {
    forall i | 0 <= i < 16
      ensures At(w, i) == words[0 + i]
    {
      ScheduleWord(block, |words|, i);
    }
  }

  /** Both methods of the standard compress a block alike. */
  lemma MethodsAgree(block: seq<Byte>, h: Words, w: Window<Word>, steps: nat)
    requires Loads(w, block) && steps == STEPS
    ensures Compress(h, block) == AddWords(h, Iterate(Advance, State(h, w), 0, steps).v)
  {
    var words := Schedule(block, steps);
    BeginsWith(block, words, h, w);
    IterateCompresses(block, words, h, State(h, w), 0, steps);
  }

  // ------------------------------------------------------------------- example

  const ABC: seq<Byte> := [0x61, 0x62, 0x63]

  const FIVE: nat := 5

  const S0 := State(
    Words(0x67452301, 0xEFCDAB89, 0x98BADCFE, 0x10325476, 0xC3D2E1F0),
    Window(0x61626380, 0x00000000, 0x00000000, 0x00000000, 0x00000000, 0x00000000, 0x00000000, 0x00000000,
           0x00000000, 0x00000000, 0x00000000, 0x00000000, 0x00000000, 0x00000000, 0x00000000, 0x00000018))

  const S1 := State(
    Words(0xCFD499DE, 0xCDD8E11B, 0x284E43C2, 0x626414DB, 0xC045BF0C),
    Window(0x00000000, 0x00000000, 0x00000000, 0x00000000, 0x00000000, 0x00000000, 0x00000000, 0x00000000,
           0x00000000, 0x00000000, 0x00000018, 0xC2C4C700, 0x00000000, 0x00000030, 0x85898E01, 0x00000000))

  const S2 := State(
    Words(0x8351F929, 0x4B6AE328, 0x27A301F5, 0x664F8C30, 0x0FF1F290),
    Window(0x00000000, 0x00000000, 0x00000000, 0x00000000, 0x00000000, 0x00000018, 0xC2C4C700, 0x00000000,
           0x00000030, 0x85898E01, 0x00000000, 0x00000060, 0x0B131C03, 0x00000030, 0x85898EC1, 0x16263806))

  const S3 := State(
    Words(0x196BEE77, 0x9128F695, 0x1181ED99, 0x18C623F9, 0x7EF6A7A2),
    Window(0x00000018, 0xC2C4C700, 0x00000000, 0x00000030, 0x85898E01, 0x00000000, 0x00000060, 0x0B131C03,
           0x00000030, 0x85898EC1, 0x16263806, 0x00000000, 0x00000180, 0x2C4C700C, 0x000000F0, 0x93AFB507))

  const S4 := State(
    Words(0xFD9E1D7D, 0xDC64901D, 0x20AA99CA, 0xD3A49608, 0xC82F758B),
    Window(0x00000000, 0x00000060, 0x0B131C03, 0x00000030, 0x85898EC1, 0x16263806, 0x00000000, 0x00000180,
           0x2C4C700C, 0x000000F0, 0x93AFB507, 0x5898E048, 0x8E9A9202, 0x00000600, 0xB131C0F0, 0x16263BC6))

  const S5 := State(
    Words(0xC7567DC6, 0xD541F12D, 0x884A0D21, 0x0CE88EFF, 0x868DEC32),
    Window(0x16263806, 0x00000000, 0x00000180, 0x2C4C700C, 0x000000F0, 0x93AFB507, 0x5898E048, 0x8E9A9202,
           0x00000600, 0xB131C0F0, 0x16263BC6, 0x4EBED41E, 0x626380A1, 0x16263806, 0x000018C0, 0xD2E138C4))

  const S6 := State(
    Words(0xC5FBAF5D, 0x8370B52E, 0xD2AA1365, 0x6F8D7EF5, 0x12104EE9),
    Window(0x93AFB507, 0x5898E048, 0x8E9A9202, 0x00000600, 0xB131C0F0, 0x16263BC6, 0x4EBED41E, 0x626380A1,
           0x16263806, 0x000018C0, 0xD2E138C4, 0x00000F00, 0x3AFB5079, 0x898E04E5, 0xE2BA3C2B, 0x000060C0))

  const S7 := State(
    Words(0x21796AD4, 0x2C0EBC11, 0x811BEA82, 0xCEE1174C, 0xC499ED01),
    Window(0x16263BC6, 0x4EBED41E, 0x626380A1, 0x16263806, 0x000018C0, 0xD2E138C4, 0x00000F00, 0x3AFB5079,
           0x898E04E5, 0xE2BA3C2B, 0x000060C0, 0x053A37CD, 0x74458547, 0xDA9415ED, 0x26380A16, 0x626383A1))

  const S8 := State(
    Words(0x32DE1CBA, 0x4C986405, 0xF718E5CF, 0x03D447F6, 0xF72EEC32),
    Window(0xD2E138C4, 0x00000F00, 0x3AFB5079, 0x898E04E5, 0xE2BA3C2B, 0x000060C0, 0x053A37CD, 0x74458547,
           0xDA9415ED, 0x26380A16, 0x626383A1, 0x4EBF54DE, 0x3835B44B, 0x0000F600, 0x1E84C7A3, 0x98E04D98))

  const S9 := State(
    Words(0x40F28E09, 0xEE1B1AAF, 0x5FC64F71, 0x25C28357, 0xFF21F7B7),
    Window(0x000060C0, 0x053A37CD, 0x74458547, 0xDA9415ED, 0x26380A16, 0x626383A1, 0x4EBF54DE, 0x3835B44B,
           0x0000F600, 0x1E84C7A3, 0x98E04D98, 0x651D16A0, 0x62658CA1, 0x458544D6, 0x44584CB7, 0x7BA06619))

  const S10 := State(
    Words(0x120731C5, 0xBAF39337, 0xAFAB40B2, 0x2806E11B, 0x8714787C),
    Window(0x626383A1, 0x4EBF54DE, 0x3835B44B, 0x0000F600, 0x1E84C7A3, 0x98E04D98, 0x651D16A0, 0x62658CA1,
           0x458544D6, 0x44584CB7, 0x7BA06619, 0x6380AEA2, 0x0AE55269, 0x627B49A1, 0x7CD45C9D, 0x000F0000))

  const S11 := State(
    Words(0x7B71F76D, 0x27E9F1D8, 0x792410DB, 0x8E11EB59, 0x99076CB3),
    Window(0x98E04D98, 0x651D16A0, 0x62658CA1, 0x458544D6, 0x44584CB7, 0x7BA06619, 0x6380AEA2, 0x0AE55269,
           0x627B49A1, 0x7CD45C9D, 0x000F0000, 0xFB50753A, 0xEC6765E8, 0xBA3C2BE2, 0x0060C000, 0x3A37CD05))

  const S12 := State(
    Words(0x3F52DE5A, 0x09D785FD, 0x3498BFD4, 0xF211824F, 0xD79915AB),
    Window(0x7BA06619, 0x6380AEA2, 0x0AE55269, 0x627B49A1, 0x7CD45C9D, 0x000F0000, 0xFB50753A, 0xEC6765E8,
           0xBA3C2BE2, 0x0060C000, 0x3A37CD05, 0x458546F4, 0xB8599DD6, 0x380A1A26, 0x01E02203, 0xE7CC3456))

  const S13 := State(
    Words(0x19DFA7AC, 0x6B61C9E1, 0xED9B0082, 0x9523272C, 0xF5D5B051),
    Window(0x000F0000, 0xFB50753A, 0xEC6765E8, 0xBA3C2BE2, 0x0060C000, 0x3A37CD05, 0x458546F4, 0xB8599DD6,
           0x380A1A26, 0x01E02203, 0xE7CC3456, 0xE6E60B69, 0x00F60A00, 0x5795EF4F, 0x822E0879, 0x7E577CE2))

  const S14 := State(
    Words(0x3F2588C2, 0x497093C0, 0xDE37534A, 0x030F7CAD, 0x4405957E),
    Window(0x3A37CD05, 0x458546F4, 0xB8599DD6, 0x380A1A26, 0x01E02203, 0xE7CC3456, 0xE6E60B69, 0x00F60A00,
           0x5795EF4F, 0x822E0879, 0x7E577CE2, 0x07EF2103, 0x8544E945, 0xEB39DAB8, 0xC205991A, 0x80AECB63))

  const S15 := State(
    Words(0x5EE76897, 0x11793F6F, 0x3B6D0B79, 0xCE616779, 0xF0667E31),
    Window(0xE7CC3456, 0xE6E60B69, 0x00F60A00, 0x5795EF4F, 0x822E0879, 0x7E577CE2, 0x07EF2103, 0x8544E945,
           0xEB39DAB8, 0xC205991A, 0x80AECB63, 0x7D84CA48, 0x7B499B62, 0x8E8010A8, 0x4B5B8A77, 0x3216B69A))

  const S16 := State(
    Words(0x42541B35, 0x5738D5E1, 0x21834873, 0x681E6DF6, 0xD8FDF6AD),
    Window(0x7E577CE2, 0x07EF2103, 0x8544E945, 0xEB39DAB8, 0xC205991A, 0x80AECB63, 0x7D84CA48, 0x7B499B62,
           0x8E8010A8, 0x4B5B8A77, 0x3216B69A, 0x0507E88D, 0x705BEE96, 0x60C0FF00, 0xA28362D0, 0x1DA6B91D))

  lemma Steps0()
    ensures Iterate(Advance, S0, 0, FIVE) == S1
  {
    IterateFive(Advance, S0, 0);
  }

  lemma Steps1()
    ensures Iterate(Advance, S1, 5, FIVE) == S2
  {
    IterateFive(Advance, S1, 5);
  }

  lemma Steps2()
    ensures Iterate(Advance, S2, 10, FIVE) == S3
  {
    IterateFive(Advance, S2, 10);
  }

  lemma Steps3()
    ensures Iterate(Advance, S3, 15, FIVE) == S4
  {
    IterateFive(Advance, S3, 15);
  }

  lemma Steps4()
    ensures Iterate(Advance, S4, 20, FIVE) == S5
  {
    IterateFive(Advance, S4, 20);
  }

  lemma Steps5()
    ensures Iterate(Advance, S5, 25, FIVE) == S6
  {
    IterateFive(Advance, S5, 25);
  }

  lemma Steps6()
    ensures Iterate(Advance, S6, 30, FIVE) == S7
  {
    IterateFive(Advance, S6, 30);
  }

  lemma Steps7()
    ensures Iterate(Advance, S7, 35, FIVE) == S8
  {
    IterateFive(Advance, S7, 35);
  }

  lemma Steps8()
    ensures Iterate(Advance, S8, 40, FIVE) == S9
  {
    IterateFive(Advance, S8, 40);
  }

  lemma Steps9()
    ensures Iterate(Advance, S9, 45, FIVE) == S10
  {
    IterateFive(Advance, S9, 45);
  }

  lemma Steps10()
    ensures Iterate(Advance, S10, 50, FIVE) == S11
  {
    IterateFive(Advance, S10, 50);
  }

  lemma Steps11()
    ensures Iterate(Advance, S11, 55, FIVE) == S12
  {
    IterateFive(Advance, S11, 55);
  }

  lemma Steps12()
    ensures Iterate(Advance, S12, 60, FIVE) == S13
  {
    IterateFive(Advance, S12, 60);
  }

  lemma Steps13()
    ensures Iterate(Advance, S13, 65, FIVE) == S14
  {
    IterateFive(Advance, S13, 65);
  }

  lemma Steps14()
    ensures Iterate(Advance, S14, 70, FIVE) == S15
  {
    IterateFive(Advance, S14, 70);
  }

  lemma Steps15()
    ensures Iterate(Advance, S15, 75, FIVE) == S16
  {
    IterateFive(Advance, S15, 75);
  }

  function Checkpoint(k: nat): State
    requires k <= 16
  {
    match k
    case 0 => S0
    case 1 => S1
    case 2 => S2
    case 3 => S3
    case 4 => S4
    case 5 => S5
    case 6 => S6
    case 7 => S7
    case 8 => S8
    case 9 => S9
    case 10 => S10
    case 11 => S11
    case 12 => S12
    case 13 => S13
    case 14 => S14
    case 15 => S15
    case 16 => S16
  }

  lemma StepsFrom(k: nat)
    requires k < 16
    ensures Iterate(Advance, Checkpoint(k), 5 * k, FIVE) == Checkpoint(k + 1)
  {
    match k {
      case 0 => Steps0();
      case 1 => Steps1();
      case 2 => Steps2();
      case 3 => Steps3();
      case 4 => Steps4();
      case 5 => Steps5();
      case 6 => Steps6();
      case 7 => Steps7();
      case 8 => Steps8();
      case 9 => Steps9();
      case 10 => Steps10();
      case 11 => Steps11();
      case 12 => Steps12();
      case 13 => Steps13();
      case 14 => Steps14();
      case 15 => Steps15();
    }
  }

  lemma {:induction false} ReachesCheckpoint(k: nat)
    requires k <= 16
    ensures Iterate(Advance, Checkpoint(0), 0, 5 * k) == Checkpoint(k)
  {
    if k > 0 {
      ReachesCheckpoint(k - 1);
      IterateOn(Advance, Checkpoint(0), 0, 5 * (k - 1), FIVE);
      StepsFrom(k - 1);
    }
  }

  lemma AbcSteps(s: State, n: nat, k: nat)
    requires s == Checkpoint(0) && n == 5 * k && k <= 16
    ensures Iterate(Advance, s, 0, n) == Checkpoint(k)
  {
    ReachesCheckpoint(k);
  }

  lemma SmallBigEndian(n: nat, width: nat)
    requires n < 256 && width > 0
    ensures forall i :: 0 <= i < width - 1 ==> BigEndian(n, width)[i] == 0
    ensures BigEndian(n, width)[width - 1] == n
    decreases width
  {
    if width > 1 {
      SmallBigEndian(0, width - 1);
    }
  }

  lemma AbcPadded(data: seq<Byte>)
    requires data == ABC
    ensures var s := Pad(data);
      && |s| == 64 && s[0] == 0x61 && s[1] == 0x62 && s[2] == 0x63 && s[3] == 0x80 && s[63] == 24
      && forall i :: 4 <= i < 63 ==> s[i] == 0
  {
    SmallBigEndian(24, 8);
    assert ZeroCount(3) == 52;
  }

  /** The number of four bytes, most significant first. */
  function Quad(b0: nat, b1: nat, b2: nat, b3: nat): nat {
    256 * (256 * (256 * b0 + b1) + b2) + b3
  }

  lemma FromSnoc(s: seq<Byte>, b: Byte)
    ensures FromBigEndian(s + [b]) == 256 * FromBigEndian(s) + b
  {
    assert (s + [b])[..|s|] == s;
  }

  lemma FourBytes(s: seq<Byte>, i: nat)
    requires i + 4 <= |s|
    ensures FromBigEndian(s[i..i + 4]) == Quad(s[i], s[i + 1], s[i + 2], s[i + 3])
  {
    FromSnoc([], s[i]);
    FromSnoc([s[i]], s[i + 1]);
    FromSnoc([s[i], s[i + 1]], s[i + 2]);
    FromSnoc([s[i], s[i + 1], s[i + 2]], s[i + 3]);
    assert [] + [s[i]] == [s[i]] && [s[i]] + [s[i + 1]] == [s[i], s[i + 1]];
    assert [s[i], s[i + 1]] + [s[i + 2]] == [s[i], s[i + 1], s[i + 2]];
    assert [s[i], s[i + 1], s[i + 2]] + [s[i + 3]] == s[i..i + 4];
  }

  lemma WordBack(x: Word)
    ensures (x as nat) as Word == x
  {
  }

  lemma WordIs(s: seq<Byte>, i: nat, x: Word)
    requires i + 4 <= |s| && Quad(s[i], s[i + 1], s[i + 2], s[i + 3]) == x as nat
    ensures WordAt(s, i) == x
  {
    FourBytes(s, i);
    WordBack(x);
  }

  lemma ZeroWord(s: seq<Byte>, i: nat)
    requires i + 4 <= |s| && s[i] == s[i + 1] == s[i + 2] == s[i + 3] == 0
    ensures WordAt(s, i) == 0
  {
    WordIs(s, i, 0);
  }

  lemma EndsAt(first: Word, last: Word, i: nat)
    requires i < 16
    ensures At(Window(first, 0, 0, 0, 0, 0, 0, 0, 0, 0, 0, 0, 0, 0, 0, last), i)
         == if i == 0 then first else if i == 15 then last else 0
  {
  }

  /** A block with the first and the last word given and zeros between. */
  lemma LoadsEnds(s: seq<Byte>, first: Word, last: Word)
    requires |s| == 64 && WordAt(s, 0) == first && WordAt(s, 60) == last
    requires forall i :: 4 <= i < 60 ==> s[i] == 0
    ensures Loads(Window(first, 0, 0, 0, 0, 0, 0, 0, 0, 0, 0, 0, 0, 0, 0, last), s)
  {
    var w := Window(first, 0, 0, 0, 0, 0, 0, 0, 0, 0, 0, 0, 0, 0, 0, last);
    forall i | 0 <= i < 16
      ensures At(w, i) == WordAt(s, 4 * i)
    {
      EndsAt(first, last, i);
      if 0 < i < 15 {
        ZeroWord(s, 4 * i);
      }
    }
  }

  lemma AbcLoads(s: seq<Byte>)
    requires |s| == 64 && s[0] == 0x61 && s[1] == 0x62 && s[2] == 0x63 && s[3] == 0x80 && s[63] == 24
    requires forall i :: 4 <= i < 63 ==> s[i] == 0
    ensures Loads(S0.w, s)
  {
    WordIs(s, 0, 0x61626380);
    WordIs(s, 60, 24);
    LoadsEnds(s, 0x61626380, 24);
  }

  lemma OneBlock(s: seq<Byte>, w: Window<Word>, last: State, steps: nat)
    requires Loads(w, s) && steps == STEPS && last == Iterate(Advance, State(INITIAL, w), 0, steps)
    ensures |s| % 64 == 0 && HashBlocks(s) == AddWords(INITIAL, last.v)
  {
    MethodsAgree(s, INITIAL, w, steps);
    assert s[..0] == [] && s[0..] == s;
    assert HashBlocks(s[..0]) == INITIAL;
  }

  lemma AbcStarts(start: State)
    requires start == Checkpoint(0)
    ensures start.v == INITIAL
  {
  }

  lemma AbcEnds(last: State)
    requires last == Checkpoint(16)
    ensures AddWords(INITIAL, last.v) == Words(0xA9993E36, 0x4706816A, 0xBA3E2571, 0x7850C26C, 0x9CD0D89D)
  {
  }

  lemma AbcHash(s: seq<Byte>, start: State, last: State, steps: nat)
    requires Loads(start.w, s) && start == Checkpoint(0) && last == Checkpoint(16) && steps == STEPS
    ensures |s| % 64 == 0
    ensures HashBlocks(s) == Words(0xA9993E36, 0x4706816A, 0xBA3E2571, 0x7850C26C, 0x9CD0D89D)
  {
    AbcStarts(start);
    AbcSteps(start, steps, 16);
    OneBlock(s, start.w, last, steps);
    AbcEnds(last);
  }

  lemma BigEndianSnoc(high: nat, low: nat, width: nat)
    requires low < 256
    ensures BigEndian(256 * high + low, width + 1) == BigEndian(high, width) + [low]
  {
    assert (256 * high + low) / 256 == high && (256 * high + low) % 256 == low;
  }

  lemma TwoBytes(high: nat, b2: nat, b3: nat, width: nat)
    requires b2 < 256 && b3 < 256
    ensures BigEndian(256 * (256 * high + b2) + b3, width + 2) == BigEndian(high, width) + [b2, b3]
  {
    BigEndianSnoc(high, b2, width);
    BigEndianSnoc(256 * high + b2, b3, width + 1);
  }

  lemma QuadBytes(b0: nat, b1: nat, b2: nat, b3: nat)
    requires b0 < 256 && b1 < 256 && b2 < 256 && b3 < 256
    ensures BigEndian(Quad(b0, b1, b2, b3), 4) == [b0, b1, b2, b3]
  {
    TwoBytes(0, b0, b1, 0);
    TwoBytes(256 * b0 + b1, b2, b3, 2);
  }

  lemma BytesOf(x: Word, b0: Byte, b1: Byte, b2: Byte, b3: Byte)
    requires x as nat == Quad(b0, b1, b2, b3)
    ensures WordBytes(x) == [b0, b1, b2, b3]
  {
    QuadBytes(b0, b1, b2, b3);
  }

  lemma DigestOf(data: seq<Byte>, h: Words, a: seq<Byte>, b: seq<Byte>, c: seq<Byte>, d: seq<Byte>, e: seq<Byte>)
    requires |Pad(data)| % 64 == 0 && HashBlocks(Pad(data)) == h
    requires WordBytes(h.a) == a && WordBytes(h.b) == b && WordBytes(h.c) == c && WordBytes(h.d) == d
    requires WordBytes(h.e) == e
    ensures Digest(data) == a + b + c + d + e
  {
  }

  /** The digest of "abc". */
  lemma AbcDigest(data: seq<Byte>)
    requires data == ABC
    ensures Digest(data)
         == [0xA9, 0x99, 0x3E, 0x36]
          + [0x47, 0x06, 0x81, 0x6A]
          + [0xBA, 0x3E, 0x25, 0x71]
          + [0x78, 0x50, 0xC2, 0x6C]
          + [0x9C, 0xD0, 0xD8, 0x9D]
  {
    AbcPadded(data);
    AbcLoads(Pad(data));
    AbcHash(Pad(data), Checkpoint(0), Checkpoint(16), STEPS);
    BytesOf(0xA9993E36, 0xA9, 0x99, 0x3E, 0x36);
    BytesOf(0x4706816A, 0x47, 0x06, 0x81, 0x6A);
    BytesOf(0xBA3E2571, 0xBA, 0x3E, 0x25, 0x71);
    BytesOf(0x7850C26C, 0x78, 0x50, 0xC2, 0x6C);
    BytesOf(0x9CD0D89D, 0x9C, 0xD0, 0xD8, 0x9D);
    DigestOf(data, HashBlocks(Pad(data)),
             [0xA9, 0x99, 0x3E, 0x36],
             [0x47, 0x06, 0x81, 0x6A],
             [0xBA, 0x3E, 0x25, 0x71],
             [0x78, 0x50, 0xC2, 0x6C],
             [0x9C, 0xD0, 0xD8, 0x9D]);
  }
}
