/** The frame format on raw bytes: what a frame means bit by bit, in the terms of sections 5.2 and 5.3 of
    RFC 6455, beside the examples of its section 5.7. */
module WebSocketBytes {
  import opened Bytes
  import opened WebSocket

  // -------------------------------------------------------------- exclusive or

  function Bit(p: bool): nat {
    if p then 1 else 0
  }

  /** Two given bits below `high`. */
  function Pair(p0: bool, p1: bool, high: nat): nat {
    2 * (2 * high + Bit(p1)) + Bit(p0)
  }

  /** The recursion of `XorBits` on numbers given by their halves and lowest bits. */
  lemma XorBitsStep(x: nat, p: bool, y: nat, q: bool, n: nat)
    ensures XorBits(2 * x + Bit(p), 2 * y + Bit(q), n + 1) == 2 * XorBits(x, y, n) + Bit(p != q)
  {
    Halves(x, Bit(p));
    Halves(y, Bit(q));
  }

  lemma XorPair(p0: bool, p1: bool, a: nat, q0: bool, q1: bool, b: nat, n: nat)
    ensures XorBits(Pair(p0, p1, a), Pair(q0, q1, b), n + 2) == Pair(p0 != q0, p1 != q1, XorBits(a, b, n))
  {
    XorBitsStep(a, p1, b, q1, n);
    XorBitsStep(2 * a + Bit(p1), p0, 2 * b + Bit(q1), q0, n + 1);
  }

  function Top2(x: bv8): nat {
    Pair(x & 64 != 0, x & 128 != 0, 0)
  }

  function Top4(x: bv8): nat {
    Pair(x & 16 != 0, x & 32 != 0, Top2(x))
  }

  function Top6(x: bv8): nat {
    Pair(x & 4 != 0, x & 8 != 0, Top4(x))
  }

  function Value(x: bv8): nat {
    Pair(x & 1 != 0, x & 2 != 0, Top6(x))
  }

  lemma ValueIs(x: bv8)
    ensures Value(x) == x as nat
  {
  }

  lemma LowLanes(x: bv8, y: bv8)
    ensures ((x ^ y) & 1 != 0) == ((x & 1 != 0) != (y & 1 != 0))
    ensures ((x ^ y) & 2 != 0) == ((x & 2 != 0) != (y & 2 != 0))
    ensures ((x ^ y) & 4 != 0) == ((x & 4 != 0) != (y & 4 != 0))
    ensures ((x ^ y) & 8 != 0) == ((x & 8 != 0) != (y & 8 != 0))
  {
  }

  lemma HighLanes(x: bv8, y: bv8)
    ensures ((x ^ y) & 16 != 0) == ((x & 16 != 0) != (y & 16 != 0))
    ensures ((x ^ y) & 32 != 0) == ((x & 32 != 0) != (y & 32 != 0))
    ensures ((x ^ y) & 64 != 0) == ((x & 64 != 0) != (y & 64 != 0))
    ensures ((x ^ y) & 128 != 0) == ((x & 128 != 0) != (y & 128 != 0))
  {
  }

  lemma XorTop2(x: bv8, y: bv8)
    ensures XorBits(Top2(x), Top2(y), 2) == Top2(x ^ y)
  {
    HighLanes(x, y);
    XorPair(x & 64 != 0, x & 128 != 0, 0, y & 64 != 0, y & 128 != 0, 0, 0);
  }

  lemma XorTop4(x: bv8, y: bv8)
    ensures XorBits(Top4(x), Top4(y), 4) == Top4(x ^ y)
  {
    HighLanes(x, y);
    XorTop2(x, y);
    XorPair(x & 16 != 0, x & 32 != 0, Top2(x), y & 16 != 0, y & 32 != 0, Top2(y), 2);
  }

  lemma XorTop6(x: bv8, y: bv8)
    ensures XorBits(Top6(x), Top6(y), 6) == Top6(x ^ y)
  {
    LowLanes(x, y);
    XorTop4(x, y);
    XorPair(x & 4 != 0, x & 8 != 0, Top4(x), y & 4 != 0, y & 8 != 0, Top4(y), 4);
  }

  lemma XorValue(x: bv8, y: bv8)
    ensures XorBits(Value(x), Value(y), 8) == Value(x ^ y)
  {
    LowLanes(x, y);
    XorTop6(x, y);
    XorPair(x & 1 != 0, x & 2 != 0, Top6(x), y & 1 != 0, y & 2 != 0, Top6(y), 6);
  }

  lemma XorOfBitVectors(x: bv8, y: bv8)
    ensures XorBits(x as nat, y as nat, 8) == (x ^ y) as nat
  {
    ValueIs(x);
    ValueIs(y);
    ValueIs(x ^ y);
    XorValue(x, y);
  }

  lemma ByteBack(b: Byte)
    ensures (b as bv8) as nat == b
  {
    assert b % 256 == b;
  }

  lemma BitVectorBack(x: bv8)
    ensures (x as nat) as bv8 == x
  {
  }

  lemma XorOfBytes(a: Byte, b: Byte, x: bv8, y: bv8)
    requires a == x as nat && b == y as nat
    ensures Xor(a, b) == (x ^ y) as nat
  {
    XorOfBitVectors(x, y);
  }

  lemma SameBits(a: Byte, x: bv8)
    requires a == x as nat
    ensures a as bv8 == x
  {
    BitVectorBack(x);
  }

  lemma XorBitwise(a: Byte, b: Byte, x: bv8, y: bv8)
    requires a == x as nat && b == y as nat
    ensures Xor(a, b) as bv8 == x ^ y
  {
    XorOfBytes(a, b, x, y);
    SameBits(Xor(a, b), x ^ y);
  }

  /** The model's exclusive or is the bit-vector one. */
  lemma XorIsBitwise(a: Byte, b: Byte)
    ensures Xor(a, b) as bv8 == (a as bv8) ^ (b as bv8)
  {
    ByteBack(a);
    ByteBack(b);
    XorBitwise(a, b, a as bv8, b as bv8);
  }

  // ---------------------------------------------------------------- the layout

  /** The opcode: the low four bits of the first byte. */
  function Opcode(s: seq<Byte>): bv8
    requires |s| >= 2
  {
    (s[0] as bv8) & 0x0F
  }

  /** The mask bit: the high bit of the second byte. */
  predicate IsMasked(s: seq<Byte>)
    requires |s| >= 2
  {
    (s[1] as bv8) & 0x80 != 0
  }

  /** The seven-bit length: the rest of the second byte. */
  function Length7(s: seq<Byte>): nat
    requires |s| >= 2
  {
    ((s[1] as bv8) & 0x7F) as nat
  }

  /** Bytes up to the mask key: two, and two or eight more for an extended length. */
  function LengthEnd(s: seq<Byte>): nat
    requires |s| >= 2
  {
    if Length7(s) == 126 then 4 else if Length7(s) == 127 then 10 else 2
  }

  /** A number followed by one more byte. */
  function Big(high: nat, low: nat): nat {
    256 * high + low
  }

  /** The payload length, extended ones in network byte order. */
  function PayloadLength(s: seq<Byte>): nat
    requires |s| >= 2 && |s| >= LengthEnd(s)
  {
    if Length7(s) == 126 then Big(s[2], s[3])
    else if Length7(s) == 127 then Big(Big(Big(Big(Big(Big(Big(s[2], s[3]), s[4]), s[5]), s[6]), s[7]), s[8]), s[9])
    else Length7(s)
  }

  function PayloadStart(s: seq<Byte>): nat
    requires |s| >= 2
  {
    LengthEnd(s) + if IsMasked(s) then 4 else 0
  }

  /** The bytes hold a whole frame. */
  predicate Whole(s: seq<Byte>) {
    |s| >= 2 && |s| >= LengthEnd(s) && |s| >= PayloadStart(s) + PayloadLength(s)
  }

  /** Octet `i` of the application data: the payload's, combined with octet `i` modulo 4 of the key. */
  function Octet(s: seq<Byte>, i: nat): bv8
    requires Whole(s) && i < PayloadLength(s)
  {
    OctetAt(s, IsMasked(s), PayloadStart(s), i)
  }

  function OctetAt(s: seq<Byte>, masked: bool, o: nat, i: nat): bv8
    requires o + i < |s| && (masked ==> o >= 4)
  {
    Combined(masked, s[o + i], if masked then s[o - 4 + i % 4] else 0)
  }

  function Combined(masked: bool, payload: Byte, key: Byte): bv8 {
    if masked then (payload as bv8) ^ (key as bv8) else payload as bv8
  }

  lemma HighBits(x: bv8)
    ensures (x & 0x80 != 0) == (x as nat >= 128)
    ensures (x & 0x7F) as nat == x as nat % 128
  {
  }

  lemma LowBits(x: bv8)
    ensures (x & 0x0F) as nat == x as nat % 16
  {
  }

  lemma SecondByte(b: Byte)
    ensures ((b as bv8) & 0x80 != 0) <==> b >= 128
    ensures ((b as bv8) & 0x7F) as nat == b % 128
  {
    ByteBack(b);
    HighBits(b as bv8);
  }

  lemma SameNumber(x: bv8, y: bv8)
    requires x as nat == y as nat
    ensures x == y
  {
    BitVectorBack(x);
    BitVectorBack(y);
  }

  lemma FirstByte(b: Byte)
    ensures (b as bv8) & 0x0F == 8 <==> b % 16 == 8
    ensures (b as bv8) & 0x0F == 1 <==> b % 16 == 1
  {
    ByteBack(b);
    LowBits(b as bv8);
    if b % 16 == 8 {
      SameNumber((b as bv8) & 0x0F, 8);
    } else if b % 16 == 1 {
      SameNumber((b as bv8) & 0x0F, 1);
    }
  }

  lemma FromPrefix(s: seq<Byte>, n: nat)
    requires n < |s|
    ensures FromBigEndian(s[..n + 1]) == Big(FromBigEndian(s[..n]), s[n])
  {
    assert s[..n + 1][..n] == s[..n];
  }

  lemma TwoByteLength(s: seq<Byte>)
    requires |s| >= 2
    ensures FromBigEndian(s[..2]) == Big(s[0], s[1])
  {
    assert s[..0] == [];
    FromPrefix(s, 0);
    FromPrefix(s, 1);
  }

  lemma EightByteLength(s: seq<Byte>)
    requires |s| >= 8
    ensures FromBigEndian(s[..8])
         == Big(Big(Big(Big(Big(Big(Big(s[0], s[1]), s[2]), s[3]), s[4]), s[5]), s[6]), s[7])
  {
    TwoByteLength(s);
    FromPrefix(s, 2);
    FromPrefix(s, 3);
    FromPrefix(s, 4);
    FromPrefix(s, 5);
    FromPrefix(s, 6);
    FromPrefix(s, 7);
  }

  lemma LengthRead(s: seq<Byte>, opcode: nat)
    requires |s| >= 2
    ensures ParseLength(s[2..], opcode, IsMasked(s), s[1] % 128)
         == if |s| < LengthEnd(s) then Parsed(NoMore, [])
            else ParseMask(s[LengthEnd(s)..], opcode, IsMasked(s), PayloadLength(s))
  {
    SecondByte(s[1]);
    if |s| >= LengthEnd(s) {
      assert s[2..][LengthEnd(s) - 2..] == s[LengthEnd(s)..];
      if Length7(s) == 126 {
        TwoByteLength(s[2..]);
      } else if Length7(s) == 127 {
        EightByteLength(s[2..]);
      }
    }
  }

  /** The application data in `n` bytes from `o` on, after the key if they are masked. */
  function Unmasked(s: seq<Byte>, masked: bool, o: nat, n: nat): (r: seq<Byte>)
    requires o + n <= |s| && (masked ==> o >= 4)
    ensures |r| == n
  {
    if masked then Masked(s[o..o + n], s[o - 4..o]) else s[o..o + n]
  }

  /** The application data of a whole frame. */
  function Data(s: seq<Byte>): (r: seq<Byte>)
    requires Whole(s)
    ensures |r| == PayloadLength(s)
  {
    Unmasked(s, IsMasked(s), PayloadStart(s), PayloadLength(s))
  }

  /** The rest of a frame from byte `e` on. */
  lemma RestRead(s: seq<Byte>, e: nat, opcode: nat, masked: bool, n: nat)
    requires e <= |s|
    ensures var o := e + if masked then 4 else 0;
      ParseMask(s[e..], opcode, masked, n)
      == if |s| < o + n then Parsed(NoMore, [])
         else Parsed(Message(if opcode == 1 then Unmasked(s, masked, o, n) else []), s[o + n..])
  {
    var o := e + if masked then 4 else 0;
    if masked && |s| >= o {
      assert s[e..][..4] == s[e..o] && s[e..][4..] == s[o..];
    }
    if |s| >= o + n {
      assert s[o..][..n] == s[o..o + n] && s[o..][n..] == s[o + n..];
    }
  }

  lemma BodyRead(s: seq<Byte>, opcode: nat)
    requires |s| >= 2 && |s| >= LengthEnd(s)
    ensures ParseMask(s[LengthEnd(s)..], opcode, IsMasked(s), PayloadLength(s))
         == if !Whole(s) then Parsed(NoMore, [])
            else Parsed(Message(if opcode == 1 then Data(s) else []), s[PayloadStart(s) + PayloadLength(s)..])
  {
    RestRead(s, LengthEnd(s), opcode, IsMasked(s), PayloadLength(s));
  }

  lemma MaskedSlice(s: seq<Byte>, o: nat, n: nat, i: nat)
    requires 4 <= o <= o + n <= |s| && i < n
    ensures Masked(s[o..o + n], s[o - 4..o])[i] == Xor(s[o + i], s[o - 4 + i % 4])
  {
  }

  lemma UnmaskedAt(s: seq<Byte>, masked: bool, o: nat, n: nat, i: nat)
    requires o + n <= |s| && (masked ==> o >= 4) && i < n
    ensures Unmasked(s, masked, o, n)[i] == if masked then Xor(s[o + i], s[o - 4 + i % 4]) else s[o + i]
  {
    if masked {
      MaskedSlice(s, o, n, i);
    }
  }

  lemma UnmaskedBits(s: seq<Byte>, masked: bool, o: nat, n: nat, i: nat, octet: Byte, payload: Byte, key: Byte)
    requires o + n <= |s| && (masked ==> o >= 4) && i < n && octet == Unmasked(s, masked, o, n)[i]
    requires payload == s[o + i] && (masked ==> key == s[o - 4 + i % 4])
    ensures octet as bv8 == Combined(masked, payload, key)
  {
    UnmaskedAt(s, masked, o, n, i);
    OctetIs(octet, masked, payload, key);
  }

  lemma OctetIs(octet: Byte, masked: bool, a: Byte, b: Byte)
    requires octet == if masked then Xor(a, b) else a
    ensures octet as bv8 == Combined(masked, a, b)
  {
    if masked {
      XorBits8(octet, a, b);
    }
  }

  lemma XorBits8(octet: Byte, a: Byte, b: Byte)
    requires octet == Xor(a, b)
    ensures octet as bv8 == (a as bv8) ^ (b as bv8)
  {
    XorIsBitwise(a, b);
  }

  lemma OctetRead(s: seq<Byte>, i: nat)
    requires Whole(s) && i < PayloadLength(s)
    ensures Data(s)[i] as bv8 == Octet(s, i)
  {
    var o, masked := PayloadStart(s), IsMasked(s);
    UnmaskedBits(s, masked, o, PayloadLength(s), i, Data(s)[i], s[o + i], if masked then s[o - 4 + i % 4] else 0);
  }

  /**
   * `read_ws_frame` on every byte sequence: a close frame or a frame cut short ends the stream; any other
   * frame is taken whole, its text being the unmasked application data for a text frame and empty for
   * every other opcode.
   */
  lemma FrameMeans(s: seq<Byte>)
    ensures |s| < 2 ==> Parse(s) == Parsed(NoMore, [])
    ensures |s| >= 2 && Opcode(s) == 8 ==> Parse(s) == Parsed(NoMore, s[2..])
    ensures |s| >= 2 && Opcode(s) != 8 && !Whole(s) ==> Parse(s) == Parsed(NoMore, [])
    ensures Whole(s) && Opcode(s) != 8 ==>
      && Parse(s).result.Message?
      && Parse(s).rest == s[PayloadStart(s) + PayloadLength(s)..]
      && (Opcode(s) != 1 ==> Parse(s).result.text == [])
      && (Opcode(s) == 1 ==> TextIs(s, Parse(s).result.text))
  {
    if |s| >= 2 {
      FirstByte(s[0]);
      SecondByte(s[1]);
      LengthRead(s, s[0] % 16);
      if |s| >= LengthEnd(s) {
        BodyRead(s, s[0] % 16);
      }
      if Whole(s) {
        TextOfData(s);
      }
    }
  }

  predicate TextIs(s: seq<Byte>, text: seq<Byte>)
    requires Whole(s)
  {
    |text| == PayloadLength(s) && forall i :: 0 <= i < |text| ==> text[i] as bv8 == Octet(s, i)
  }

  lemma TextOfData(s: seq<Byte>)
    requires Whole(s)
    ensures TextIs(s, Data(s))
  {
    forall i | 0 <= i < PayloadLength(s)
      ensures Data(s)[i] as bv8 == Octet(s, i)
    {
      OctetRead(s, i);
    }
  }

  // ------------------------------------------------------------------- writing

  /** A frame written is final, a text frame, unmasked, and uses the shortest length encoding. */
  lemma WrittenFrame(text: seq<Byte>)
    requires |text| < U64
    ensures var s := Encode(text);
      && |s| >= 2
      && s[0] as bv8 == 0x81
      && !IsMasked(s)
      && (Length7(s) == 126 <==> 126 <= |text| < 0x1_0000)
      && (Length7(s) == 127 <==> |text| >= 0x1_0000)
      && Whole(s)
      && PayloadLength(s) == |text|
      && |s| == PayloadStart(s) + |text|
      && s[PayloadStart(s)..] == text
  {
    var s := Encode(text);
    SecondByte(s[1]);
    FirstByte(s[0]);
    RoundTrip(text, []);
    assert s + [] == s;
    FrameMeans(s);
  }

  // ------------------------------------------------------------------ examples

  const HELLO: seq<Byte> := [0x48, 0x65, 0x6C, 0x6C, 0x6F]

  lemma FiveOctetHeader(s: seq<Byte>)
    requires |s| == 11 && s[0] == 0x81 && s[1] == 0x85
    ensures Opcode(s) == 1 && IsMasked(s) && Length7(s) == 5
  {
    FirstByte(s[0]);
    SecondByte(s[1]);
  }

  /** Octet `i` of a masked text frame of five, from its payload byte and key byte. */
  lemma FiveOctet(s: seq<Byte>, text: seq<Byte>, i: nat, payload: Byte, key: Byte, octet: Byte)
    requires |s| == 11 && IsMasked(s) && Length7(s) == 5 && TextIs(s, text) && i < 5
    requires s[6 + i] == payload && s[2 + i % 4] == key && (payload as bv8) ^ (key as bv8) == octet as bv8
    ensures text[i] == octet
  {
    ByteBack(text[i]);
    ByteBack(octet);
  }

  const MASKED_HELLO: seq<Byte> := [0x81, 0x85, 0x37, 0xFA, 0x21, 0x3D, 0x7F, 0x9F, 0x4D, 0x51, 0x58]

  lemma HelloOctets(i: nat, payload: Byte, key: Byte)
    requires i < 5
    requires payload == [0x7F, 0x9F, 0x4D, 0x51, 0x58][i] && key == [0x37, 0xFA, 0x21, 0x3D][i % 4]
    ensures (payload as bv8) ^ (key as bv8) == HELLO[i] as bv8
  {
    if i == 0 {
      assert (0x7F as bv8) ^ (0x37 as bv8) == 0x48 as bv8;
    } else if i == 1 {
      assert (0x9F as bv8) ^ (0xFA as bv8) == 0x65 as bv8;
    } else if i == 2 {
      assert (0x4D as bv8) ^ (0x21 as bv8) == 0x6C as bv8;
    } else if i == 3 {
      assert (0x51 as bv8) ^ (0x3D as bv8) == 0x6C as bv8;
    } else {
      assert (0x58 as bv8) ^ (0x37 as bv8) == 0x6F as bv8;
    }
  }

  /** The key and the masked payload of the masked example. */
  predicate HasHello(s: seq<Byte>) {
    |s| == 11 && s[2..6] == [0x37, 0xFA, 0x21, 0x3D] && s[6..] == [0x7F, 0x9F, 0x4D, 0x51, 0x58]
  }

  lemma HelloOctet(s: seq<Byte>, text: seq<Byte>, i: nat)
    requires HasHello(s) && IsMasked(s) && Length7(s) == 5 && TextIs(s, text) && i < 5
    ensures text[i] == HELLO[i]
  {
    var key, payload := s[2..6], s[6..];
    assert payload[i] == s[6 + i] && key[i % 4] == s[2 + i % 4];
    HelloOctets(i, payload[i], key[i % 4]);
    FiveOctet(s, text, i, payload[i], key[i % 4], HELLO[i]);
  }

  lemma FiveOctetFrame(s: seq<Byte>)
    requires |s| == 11 && s[0] == 0x81 && s[1] == 0x85
    ensures IsMasked(s) && Length7(s) == 5 && Whole(s)
    ensures Parse(s).result.Message? && Parse(s).rest == [] && TextIs(s, Parse(s).result.text)
  {
    FiveOctetHeader(s);
    FrameMeans(s);
  }

  lemma HelloBytes(s: seq<Byte>)
    requires s == MASKED_HELLO
    ensures HasHello(s) && s[0] == 0x81 && s[1] == 0x85
  {
  }

  lemma HelloText(s: seq<Byte>, text: seq<Byte>)
    requires HasHello(s) && IsMasked(s) && Length7(s) == 5 && TextIs(s, text)
    ensures text == HELLO
  {
    assert |text| == 5;
    forall i | 0 <= i < 5
      ensures text[i] == HELLO[i]
    {
      HelloOctet(s, text, i);
    }
  }

  /** The masked single-frame text message of section 5.7. */
  lemma MaskedHello(s: seq<Byte>)
    requires s == MASKED_HELLO
    ensures Parse(s) == Parsed(Message(HELLO), [])
  {
    HelloBytes(s);
    FiveOctetFrame(s);
    HelloText(s, Parse(s).result.text);
  }

  /** The unmasked one. */
  lemma UnmaskedHello()
    ensures Encode(HELLO) == [0x81, 0x05, 0x48, 0x65, 0x6C, 0x6C, 0x6F]
  {
    assert BigEndian(5, 0) == [];
  }
}
