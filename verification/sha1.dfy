/** SHA-1, computed in place over a growing message, an 80-word array and five running words, against
    the functional description in sections 4 to 6.1 of RFC 3174. */
module Sha1 {
  import opened Bytes

  type Word = bv32

  const STEPS: nat := 80

  // ------------------------------------------------------------- specification

  function CircularShift(n: nat, x: Word): Word
    requires 0 < n < 32
  {
    (x << n) | (x >> (32 - n))
  }

  function Choose(b: Word, c: Word, d: Word): Word {
    (b & c) | (!b & d)
  }

  function Parity(b: Word, c: Word, d: Word): Word {
    b ^ c ^ d
  }

  function Majority(b: Word, c: Word, d: Word): Word {
    (b & c) | (b & d) | (c & d)
  }

  /** Section 5: the functions f(t; B, C, D) and constants K(t). */
  function F(t: nat, b: Word, c: Word, d: Word): Word
    requires t < 80
  {
    if t < 20 then Choose(b, c, d)
    else if t < 40 then Parity(b, c, d)
    else if t < 60 then Majority(b, c, d)
    else Parity(b, c, d)
  }

  function K(t: nat): Word
    requires t < 80
  {
    if t < 20 then 0x5A827999 else if t < 40 then 0x6ED9EBA1 else if t < 60 then 0x8F1BBCDC else 0xCA62C1D6
  }

  function WordAt(s: seq<Byte>, i: nat): Word
    requires i + 4 <= |s|
  {
    FromBigEndianBounded(s[i..i + 4]);
    assert Pow256(4) == 0x1_0000_0000;
    FromBigEndian(s[i..i + 4]) as Word
  }

  function Expand(w3: Word, w8: Word, w14: Word, w16: Word): Word {
    CircularShift(1, w3 ^ w8 ^ w14 ^ w16)
  }

  /** Section 6.1 steps a and b: word t of the schedule of a 64-byte block, from the words before it. */
  function NextWord(block: seq<Byte>, w: seq<Word>): Word
    requires |block| == 64 && |w| < 80
  {
    var t := |w|;
    if t < 16 then WordAt(block, 4 * t) else Expand(w[t - 3], w[t - 8], w[t - 14], w[t - 16])
  }

  function Schedule(block: seq<Byte>, n: nat): (w: seq<Word>)
    requires |block| == 64 && n <= 80
    ensures |w| == n
  {
    if n == 0 then [] else Schedule(block, n - 1) + [NextWord(block, Schedule(block, n - 1))]
  }

  datatype Words = Words(a: Word, b: Word, c: Word, d: Word, e: Word)

  function Sum5(x: Word, f: Word, e: Word, w: Word, k: Word): Word {
    x + f + e + w + k
  }

  /** Section 6.1 step d for one t. */
  function Round(v: Words, t: nat, w: Word): Words
    requires t < 80
  {
    Words(Sum5(CircularShift(5, v.a), F(t, v.b, v.c, v.d), v.e, w, K(t)), v.a, CircularShift(30, v.b), v.c, v.d)
  }

  function Rounds(v: Words, w: seq<Word>, t: nat): Words
    requires |w| == 80 && t <= 80
  {
    if t == 0 then v else Round(Rounds(v, w, t - 1), t - 1, w[t - 1])
  }

  function Compress(h: Words, block: seq<Byte>): Words
    requires |block| == 64
  {
    AddWords(h, Rounds(h, Schedule(block, STEPS), STEPS))
  }

  function AddWords(u: Words, v: Words): Words {
    Words(u.a + v.a, u.b + v.b, u.c + v.c, u.d + v.d, u.e + v.e)
  }

  const INITIAL: Words := Words(0x67452301, 0xEFCDAB89, 0x98BADCFE, 0x10325476, 0xC3D2E1F0)

  /** Sections 6.1 c to e over the blocks of a padded message. */
  function HashBlocks(message: seq<Byte>): Words
    requires |message| % 64 == 0
    decreases |message|
  {
    if message == [] then INITIAL
    else
      var n := |message| - 64;
      Compress(HashBlocks(message[..n]), message[n..])
  }

  function WordBytes(x: Word): seq<Byte> {
    BigEndian(x as nat, 4)
  }

  function Zeros(n: nat): seq<Byte> {
    seq(n, _ => 0)
  }

  /** Zero bytes between the 1 bit and the length. */
  function ZeroCount(length: nat): nat {
    (55 - length) % 64
  }

  /** Section 4: the message, a 1 bit, zeros, and the bit length as two words. */
  function Pad(data: seq<Byte>): seq<Byte> {
    data + [0x80] + Zeros(ZeroCount(|data|)) + BigEndian(8 * |data|, 8)
  }

  function DigestBytes(h: Words): (r: seq<Byte>)
    ensures |r| == 20
  {
    WordBytes(h.a) + WordBytes(h.b) + WordBytes(h.c) + WordBytes(h.d) + WordBytes(h.e)
  }

  function Digest(data: seq<Byte>): seq<Byte> {
    PadFillsBlocks(data);
    var h := HashBlocks(Pad(data));
    DigestBytes(h)
  }

  // ------------------------------------------------------------------- padding

  lemma PadLength(length: nat)
    ensures (length + 9 + ZeroCount(length)) % 64 == 0
  {
    var q := (55 - length) / 64;
    assert length + 9 + ZeroCount(length) == 64 * (1 - q);
  }

  /** The padded length is the least multiple of 64 that holds the data and the nine extra bytes. */
  lemma PadFillsBlocks(data: seq<Byte>)
    ensures |Pad(data)| % 64 == 0
    ensures |data| + 9 <= |Pad(data)| < |data| + 9 + 64
  {
    PadLength(|data|);
    assert |Pad(data)| == |data| + 9 + ZeroCount(|data|);
  }

  lemma BitLengthRecovered(data: seq<Byte>)
    requires |data| < 0x2000_0000_0000_0000
    ensures FromBigEndian(Pad(data)[|Pad(data)| - 8..]) == 8 * |data|
  {
    assert Pad(data)[|Pad(data)| - 8..] == BigEndian(8 * |data|, 8);
    assert Pow256(8) == 0x1_0000_0000_0000_0000;
    BigEndianRoundTrip(8 * |data|, 8);
  }

  /** Different messages are padded differently. */
  lemma PadInjective(a: seq<Byte>, b: seq<Byte>)
    requires |a| < 0x2000_0000_0000_0000 && |b| < 0x2000_0000_0000_0000
    requires Pad(a) == Pad(b)
    ensures a == b
  {
    BitLengthRecovered(a);
    BitLengthRecovered(b);
    assert a == Pad(a)[..|a|] && b == Pad(b)[..|b|];
  }

  lemma WordBytesRoundTrip(x: Word)
    ensures FromBigEndian(WordBytes(x)) == x as nat
  {
    assert Pow256(4) == 0x1_0000_0000;
    BigEndianRoundTrip(x as nat, 4);
  }

  lemma WordDetermined(x: Word, y: Word)
    requires WordBytes(x) == WordBytes(y)
    ensures x == y
  {
    WordBytesRoundTrip(x);
    WordBytesRoundTrip(y);
    assert (x as nat) as Word == x && (y as nat) as Word == y;
  }

  lemma Fifths(a: seq<Byte>, b: seq<Byte>, c: seq<Byte>, d: seq<Byte>, e: seq<Byte>)
    requires |a| == |b| == |c| == |d| == |e| == 4
    ensures var s := a + b + c + d + e; s[..4] == a && s[4..8] == b && s[8..12] == c && s[12..16] == d && s[16..] == e
  {
  }

  /** The digest determines the five final words. */
  lemma DigestDeterminesWords(g: Words, h: Words)
    requires DigestBytes(g) == DigestBytes(h)
    ensures g == h
  {
    Fifths(WordBytes(g.a), WordBytes(g.b), WordBytes(g.c), WordBytes(g.d), WordBytes(g.e));
    Fifths(WordBytes(h.a), WordBytes(h.b), WordBytes(h.c), WordBytes(h.d), WordBytes(h.e));
    WordDetermined(g.a, h.a);
    WordDetermined(g.b, h.b);
    WordDetermined(g.c, h.c);
    WordDetermined(g.d, h.d);
    WordDetermined(g.e, h.e);
  }

  // ------------------------------------------------------------ implementation

  lemma RotateIsCircularShift(x: Word)
    ensures x.RotateLeft(1) == CircularShift(1, x)
    ensures x.RotateLeft(5) == CircularShift(5, x)
    ensures x.RotateLeft(30) == CircularShift(30, x)
  {
  }

  method PadMessage(data: seq<Byte>) returns (msg: seq<Byte>)
    requires |data| < 0x2000_0000_0000_0000
    ensures msg == Pad(data)
  {
    msg := data;
    var lenBits := |msg| * 8;
    msg := msg + [0x80];
    ghost var zeros := 0;
    while (|msg| + 8) % 64 != 0
      invariant 0 <= zeros <= ZeroCount(|data|)
      invariant msg == data + [0x80] + Zeros(zeros)
      decreases ZeroCount(|data|) - zeros
    {
      msg := msg + [0x00];
      zeros := zeros + 1;
    }
    assert zeros == ZeroCount(|data|);
    msg := msg + BigEndian(lenBits, 8);
  }

  method ExpandWord(w3: Word, w8: Word, w14: Word, w16: Word) returns (r: Word)
    ensures r == Expand(w3, w8, w14, w16)
  {
    RotateIsCircularShift(w3 ^ w8 ^ w14 ^ w16);
    r := (w3 ^ w8 ^ w14 ^ w16).RotateLeft(1);
  }

  /** The first sixteen words come from the chunk. */
  method LoadWords(chunk: seq<Byte>, w: array<Word>)
    requires |chunk| == 64 && w.Length == STEPS
    modifies w
    ensures w[..16] == Schedule(chunk, 16)
  {
    for i := 0 to 16
      invariant w[..i] == Schedule(chunk, i)
    {
      w[i] := WordAt(chunk, i * 4);
      assert w[..i + 1] == w[..i] + [w[i]];
    }
  }

  method FillSchedule(chunk: seq<Byte>) returns (w: array<Word>)
    requires |chunk| == 64
    ensures fresh(w) && w.Length == STEPS && w[..] == Schedule(chunk, STEPS)
  {
    w := new Word[STEPS](_ => 0);
    LoadWords(chunk, w);
    for i := 16 to STEPS
      invariant w[..i] == Schedule(chunk, i)
    {
      w[i] := ExpandWord(w[i - 3], w[i - 8], w[i - 14], w[i - 16]);
      assert w[..i + 1] == w[..i] + [w[i]];
    }
    assert w[..] == w[..STEPS];
  }

  /** The function and constant of step `i`. */
  method Select(i: nat, b: Word, c: Word, d: Word) returns (f: Word, k: Word)
    requires i < 80
    ensures f == F(i, b, c, d) && k == K(i)
  {
    if i < 20 {
      f, k := Choose(b, c, d), 0x5A827999;
    } else if i < 40 {
      f, k := Parity(b, c, d), 0x6ED9EBA1;
    } else if i < 60 {
      f, k := Majority(b, c, d), 0x8F1BBCDC;
    } else {
      f, k := Parity(b, c, d), 0xCA62C1D6;
    }
  }

  method Temp(a: Word, f: Word, e: Word, k: Word, w: Word) returns (temp: Word)
    ensures temp == Sum5(CircularShift(5, a), f, e, w, k)
  {
    RotateIsCircularShift(a);
    var x := a.RotateLeft(5);
    temp := x + f + e + k + w;
    SumOrder(x, f, e, k, w);
  }

  lemma SumOrder(x: Word, f: Word, e: Word, k: Word, w: Word)
    ensures x + f + e + k + w == Sum5(x, f, e, w, k)
  {
  }

  method Rotate30(b: Word) returns (r: Word)
    ensures r == CircularShift(30, b)
  {
    RotateIsCircularShift(b);
    r := b.RotateLeft(30);
  }

  /** The body of the 80-step loop. */
  method Step(v: Words, i: nat, w: Word) returns (r: Words)
    requires i < 80
    ensures r == Round(v, i, w)
  {
    var f, k := Select(i, v.b, v.c, v.d);
    var temp := Temp(v.a, f, v.e, k, w);
    var c := Rotate30(v.b);
    r := Words(temp, v.a, c, v.c, v.d);
  }

  method RunRounds(h: Words, w: array<Word>) returns (v: Words)
    requires w.Length == 80
    ensures v == Rounds(h, w[..], STEPS)
  {
    v := h;
    for i := 0 to 80
      invariant v == Rounds(h, w[..], i)
    {
      assert w[..][i] == w[i];
      v := Step(v, i, w[i]);
    }
  }

  method CompressChunk(chunk: seq<Byte>, h: Words) returns (r: Words)
    requires |chunk| == 64
    ensures r == Compress(h, chunk)
  {
    var w := FillSchedule(chunk);
    var v := RunRounds(h, w);
    r := AddWords(h, v);
  }

  lemma HashAppend(message: seq<Byte>, block: seq<Byte>)
    requires |message| % 64 == 0 && |block| == 64
    ensures HashBlocks(message + block) == Compress(HashBlocks(message), block)
  {
    assert (message + block)[..|message|] == message;
    assert (message + block)[|message|..] == block;
  }

  method Absorb(ghost message: seq<Byte>, chunk: seq<Byte>, h: Words) returns (r: Words)
    requires |message| % 64 == 0 && |chunk| == 64 && h == HashBlocks(message)
    ensures r == HashBlocks(message + chunk)
  {
    HashAppend(message, chunk);
    r := CompressChunk(chunk, h);
  }

  lemma NextChunk(msg: seq<Byte>, offset: nat)
    requires offset < |msg| && |msg| % 64 == 0 && offset % 64 == 0
    ensures offset + 64 <= |msg| && (offset + 64) % 64 == 0
    ensures msg[..offset] + msg[offset..offset + 64] == msg[..offset + 64]
  {
  }

  method HashMessage(msg: seq<Byte>) returns (h: Words)
    requires |msg| % 64 == 0
    ensures h == HashBlocks(msg)
  {
    h := INITIAL;
    var offset := 0;
    while offset < |msg|
      invariant 0 <= offset <= |msg| && offset % 64 == 0
      invariant h == HashBlocks(msg[..offset])
    {
      NextChunk(msg, offset);
      var chunk := msg[offset..offset + 64];
      h := Absorb(msg[..offset], chunk, h);
      offset := offset + 64;
    }
    assert msg[..offset] == msg;
  }

  /** `sha1` computes the digest of RFC 3174 for every input shorter than 2^61 bytes. */
  method Compute(data: seq<Byte>) returns (out: seq<Byte>)
    requires |data| < 0x2000_0000_0000_0000
    ensures out == Digest(data) && |out| == 20
  {
    var msg := PadMessage(data);
    PadFillsBlocks(data);
    var h := HashMessage(msg);
    out := DigestBytes(h);
  }
}
