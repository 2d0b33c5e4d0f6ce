/** WebSocket frames (sections 5.2 and 5.3 of RFC 6455) over a byte stream that delivers its bytes in
    arbitrary non-empty pieces. */
module WebSocket {
  import opened Bytes
  import opened Seqs

  /** `Ok(Some(text))`, `Ok(None)` and `Err` of `read_ws_frame`. */
  datatype ReadResult = Message(text: seq<Byte>) | NoMore | IoError

  datatype Parsed = Parsed(result: ReadResult, rest: seq<Byte>)

  // ------------------------------------------------------------------- masking

  function Pow2(n: nat): (r: nat)
    ensures r > 0
  {
    if n == 0 then 1 else 2 * Pow2(n - 1)
  }

  /** Exclusive or of the lowest `n` bits. */
  function XorBits(a: nat, b: nat, n: nat): (r: nat)
    ensures r < Pow2(n)
  {
    if n == 0 then 0 else 2 * XorBits(a / 2, b / 2, n - 1) + (a % 2 + b % 2) % 2
  }

  function Xor(a: Byte, b: Byte): Byte {
    assert Pow2(8) == 256;
    XorBits(a, b, 8)
  }

  lemma Halves(x: nat, bit: nat)
    requires bit < 2
    ensures (2 * x + bit) / 2 == x && (2 * x + bit) % 2 == bit
  {
  }

  lemma BitTwice(a: nat, b: nat)
    ensures ((a % 2 + b % 2) % 2 + b % 2) % 2 == a % 2
  {
  }

  lemma {:induction false} XorBitsTwice(a: nat, b: nat, n: nat)
    requires a < Pow2(n)
    ensures XorBits(XorBits(a, b, n), b, n) == a
  {
    if n > 0 {
      var x, bit := XorBits(a / 2, b / 2, n - 1), (a % 2 + b % 2) % 2;
      Halves(x, bit);
      BitTwice(a, b);
      XorBitsTwice(a / 2, b / 2, n - 1);
      assert XorBits(2 * x + bit, b, n) == 2 * XorBits(x, b / 2, n - 1) + (bit + b % 2) % 2;
    }
  }

  lemma XorTwice(a: Byte, b: Byte)
    ensures Xor(Xor(a, b), b) == a
  {
    assert Pow2(8) == 256;
    XorBitsTwice(a, b, 8);
  }

  /** Octet i of the data, combined with octet i modulo 4 of the key. */
  function Masked(data: seq<Byte>, key: seq<Byte>): (r: seq<Byte>)
    requires |key| == 4
    ensures |r| == |data|
  {
    seq(|data|, i requires 0 <= i < |data| => Xor(data[i], key[i % 4]))
  }

  lemma MaskedTwice(data: seq<Byte>, key: seq<Byte>)
    requires |key| == 4
    ensures Masked(Masked(data, key), key) == data
  {
    forall i | 0 <= i < |data|
      ensures Masked(Masked(data, key), key)[i] == data[i]
    {
      XorTwice(data[i], key[i % 4]);
    }
  }

  // ------------------------------------------------------------------- parsing

  function ExtendedWidth(len7: nat): nat {
    if len7 == 126 then 2 else if len7 == 127 then 8 else 0
  }

  /** What one call of `read_ws_frame` makes of the bytes that are still to come. Running out of bytes
      consumes them all. */
  function Parse(s: seq<Byte>): (r: Parsed)
    ensures !r.result.IoError?
    ensures r.result.Message? ==> |r.rest| < |s|
  {
    if |s| < 2 then Parsed(NoMore, []) else
    var opcode, masked, len7 := s[0] % 16, s[1] >= 128, s[1] % 128;
    if opcode == 8 then Parsed(NoMore, s[2..]) else
    ParseLength(s[2..], opcode, masked, len7)
  }

  function ParseLength(s: seq<Byte>, opcode: nat, masked: bool, len7: nat): (r: Parsed)
    ensures !r.result.IoError? && |r.rest| <= |s|
  {
    var width := ExtendedWidth(len7);
    if |s| < width then Parsed(NoMore, []) else
    var payloadLen := if width == 0 then len7 else FromBigEndian(s[..width]);
    ParseMask(s[width..], opcode, masked, payloadLen)
  }

  function ParseMask(s: seq<Byte>, opcode: nat, masked: bool, payloadLen: nat): (r: Parsed)
    ensures !r.result.IoError? && |r.rest| <= |s|
  {
    if !masked then ParsePayload(s, opcode, [0, 0, 0, 0], false, payloadLen)
    else if |s| < 4 then Parsed(NoMore, [])
    else ParsePayload(s[4..], opcode, s[..4], true, payloadLen)
  }

  function ParsePayload(s: seq<Byte>, opcode: nat, mask: seq<Byte>, masked: bool, payloadLen: nat): (r: Parsed)
    requires |mask| == 4
    ensures !r.result.IoError? && |r.rest| <= |s|
  {
    if |s| < payloadLen then Parsed(NoMore, []) else
    var payload := if masked then Masked(s[..payloadLen], mask) else s[..payloadLen];
    Parsed(Message(if opcode == 1 then payload else []), s[payloadLen..])
  }

  // ------------------------------------------------------------------- writing

  const U64: nat := 0x1_0000_0000_0000_0000

  /** The seven-bit length field for a payload length. */
  function ShortLength(length: nat): nat {
    if length < 126 then length else if length <= 65535 then 126 else 127
  }

  /** The header of `write_ws_frame`, with the mask bit as given. */
  function Header(length: nat, masked: bool): seq<Byte> {
    [0x81, (if masked then 128 else 0) + ShortLength(length)] + BigEndian(length, ExtendedWidth(ShortLength(length)))
  }

  function Encode(text: seq<Byte>): seq<Byte>
    requires |text| < U64
  {
    Header(|text|, false) + text
  }

  /** The same frame as a client must send it, masked with `key`. */
  function EncodeMasked(text: seq<Byte>, key: seq<Byte>): seq<Byte>
    requires |text| < U64 && |key| == 4
  {
    Header(|text|, true) + key + Masked(text, key)
  }

  // --------------------------------------------------------------- round trips

  lemma WidthHolds(length: nat)
    requires length < U64
    ensures var len7 := ShortLength(length); var width := ExtendedWidth(len7);
            if width == 0 then length == len7 else length < Pow256(width)
  {
    assert Pow256(2) == 65536 && Pow256(8) == U64;
  }

  lemma TwoBytes(b0: Byte, b1: Byte, s: seq<Byte>)
    requires b0 % 16 != 8
    ensures Parse([b0, b1] + s) == ParseLength(s, b0 % 16, b1 >= 128, b1 % 128)
  {
    assert ([b0, b1] + s)[2..] == s;
  }

  lemma LengthTaken(extension: seq<Byte>, body: seq<Byte>, masked: bool, len7: nat)
    requires |extension| == ExtendedWidth(len7)
    ensures ParseLength(extension + body, 1, masked, len7) ==
            ParseMask(body, 1, masked, if extension == [] then len7 else FromBigEndian(extension))
  {
    var s := extension + body;
    assert s[|extension|..] == body && s[..|extension|] == extension;
  }

  lemma ExtensionParsed(whole: seq<Byte>, b1: Byte, extension: seq<Byte>, body: seq<Byte>, length: nat)
    requires whole == [0x81, b1] + (extension + body) && |extension| == ExtendedWidth(b1 % 128)
    requires length == if extension == [] then b1 % 128 else FromBigEndian(extension)
    ensures Parse(whole) == ParseMask(body, 1, b1 >= 128, length)
  {
    TwoBytes(0x81, b1, extension + body);
    LengthTaken(extension, body, b1 >= 128, b1 % 128);
  }

  /** The length field comes back for each of its three encodings. */
  lemma HeaderParsed(length: nat, masked: bool, body: seq<Byte>)
    requires length < U64
    ensures Parse(Header(length, masked) + body) == ParseMask(body, 1, masked, length)
  {
    var len7 := ShortLength(length);
    var width := ExtendedWidth(len7);
    var b1: Byte := (if masked then 128 else 0) + len7;
    var extension := BigEndian(length, width);
    WidthHolds(length);
    if width > 0 {
      BigEndianRoundTrip(length, width);
    }
    Regroup([0x81, b1], extension, body);
    ExtensionParsed(Header(length, masked) + body, b1, extension, body, length);
  }

  lemma PayloadParsed(data: seq<Byte>, rest: seq<Byte>, mask: seq<Byte>, masked: bool)
    requires |mask| == 4
    ensures ParsePayload(data + rest, 1, mask, masked, |data|) ==
            Parsed(Message(if masked then Masked(data, mask) else data), rest)
  {
    assert (data + rest)[..|data|] == data && (data + rest)[|data|..] == rest;
  }

  lemma PlainBodyParsed(text: seq<Byte>, rest: seq<Byte>)
    ensures ParseMask(text + rest, 1, false, |text|) == Parsed(Message(text), rest)
  {
    PayloadParsed(text, rest, [0, 0, 0, 0], false);
  }

  /** A written frame is read back whole, and nothing after it is touched. */
  lemma RoundTrip(text: seq<Byte>, rest: seq<Byte>)
    requires |text| < U64
    ensures Parse(Encode(text) + rest) == Parsed(Message(text), rest)
  {
    Regroup(Header(|text|, false), text, rest);
    HeaderParsed(|text|, false, text + rest);
    PlainBodyParsed(text, rest);
  }

  lemma MaskedBodyParsed(text: seq<Byte>, key: seq<Byte>, rest: seq<Byte>)
    requires |key| == 4
    ensures ParseMask(key + (Masked(text, key) + rest), 1, true, |text|) == Parsed(Message(text), rest)
  {
    var m := Masked(text, key);
    MaskTaken(key, m + rest, |text|);
    PayloadParsed(m, rest, key, true);
    MaskedTwice(text, key);
  }

  /** A masked frame decodes to the same payload as its unmasked form. */
  lemma MaskedRoundTrip(text: seq<Byte>, key: seq<Byte>, rest: seq<Byte>)
    requires |text| < U64 && |key| == 4
    ensures Parse(EncodeMasked(text, key) + rest) == Parsed(Message(text), rest)
  {
    RegroupFour(Header(|text|, true), key, Masked(text, key), rest);
    HeaderParsed(|text|, true, key + (Masked(text, key) + rest));
    MaskedBodyParsed(text, key, rest);
  }

  lemma MaskTaken(key: seq<Byte>, s: seq<Byte>, length: nat)
    requires |key| == 4
    ensures ParseMask(key + s, 1, true, length) == ParsePayload(s, 1, key, true, length)
  {
    assert (key + s)[..4] == key && (key + s)[4..] == s;
  }

  lemma CutWithin(first: seq<Byte>, others: seq<Byte>, k: nat)
    requires k <= |first|
    ensures (first + others)[..k] == first[..k]
  {
  }

  lemma CutBeyond(first: seq<Byte>, others: seq<Byte>, k: nat)
    requires |first| <= k <= |first| + |others|
    ensures (first + others)[..k] == first + others[..k - |first|]
  {
  }

  lemma ExtensionCut(b1: Byte, extension: seq<Byte>)
    requires |extension| < ExtendedWidth(b1 % 128)
    ensures Parse([0x81, b1] + extension) == Parsed(NoMore, [])
  {
    TwoBytes(0x81, b1, extension);
  }

  lemma HeaderCut(length: nat, k: nat)
    requires length < U64 && k < |Header(length, false)|
    ensures Parse(Header(length, false)[..k]) == Parsed(NoMore, [])
  {
    var b1: Byte := ShortLength(length);
    var extension := BigEndian(length, ExtendedWidth(b1));
    if k >= 2 {
      CutBeyond([0x81, b1], extension, k);
      ExtensionCut(b1, extension[..k - 2]);
    }
  }

  /** A frame cut short anywhere yields no message. */
  lemma TruncatedFrame(text: seq<Byte>, k: nat)
    requires |text| < U64 && k < |Encode(text)|
    ensures Parse(Encode(text)[..k]) == Parsed(NoMore, [])
  {
    var h := Header(|text|, false);
    if k < |h| {
      CutWithin(h, text, k);
      HeaderCut(|text|, k);
    } else {
      CutBeyond(h, text, k);
      HeaderParsed(|text|, false, text[..k - |h|]);
    }
  }

  // --------------------------------------------------------------- whole streams

  /** The texts returned by reading frames until there are no more, and the bytes never read. */
  datatype Stream = Stream(texts: seq<seq<Byte>>, rest: seq<Byte>)

  function ReadStream(s: seq<Byte>): Stream
    decreases |s|
  {
    var p := Parse(s);
    if p.result.Message? then After(p.result.text, ReadStream(p.rest)) else Stream([], p.rest)
  }

  function After(text: seq<Byte>, later: Stream): Stream {
    Stream([text] + later.texts, later.rest)
  }

  predicate Sendable(texts: seq<seq<Byte>>) {
    forall i :: 0 <= i < |texts| ==> |texts[i]| < U64
  }

  function EncodeAll(texts: seq<seq<Byte>>): seq<Byte>
    requires Sendable(texts)
  {
    if texts == [] then [] else Encode(texts[0]) + EncodeAll(texts[1..])
  }

  /** How many of the frames fit whole in the first `k` bytes. */
  function WholeFrames(texts: seq<seq<Byte>>, k: nat): (n: nat)
    requires Sendable(texts)
    ensures n <= |texts|
  {
    if texts == [] || k < |Encode(texts[0])| then 0 else 1 + WholeFrames(texts[1..], k - |Encode(texts[0])|)
  }

  lemma FirstFrameRead(text: seq<Byte>, rest: seq<Byte>)
    requires |text| < U64
    ensures ReadStream(Encode(text) + rest) == After(text, ReadStream(rest))
  {
    RoundTrip(text, rest);
  }

  lemma CutFrameRead(text: seq<Byte>, k: nat)
    requires |text| < U64 && k < |Encode(text)|
    ensures ReadStream(Encode(text)[..k]) == Stream([], [])
  {
    TruncatedFrame(text, k);
  }

  lemma TakeOneMore(texts: seq<seq<Byte>>, n: nat)
    requires n < |texts|
    ensures [texts[0]] + texts[1..][..n] == texts[..n + 1]
  {
  }

  /** A cut behind the first frame leaves that frame, then the rest of the stream with the same cut. */
  lemma CutStreamStep(texts: seq<seq<Byte>>, k: nat)
    requires Sendable(texts) && texts != [] && |Encode(texts[0])| <= k <= |EncodeAll(texts)|
    ensures ReadStream(EncodeAll(texts)[..k])
         == After(texts[0], ReadStream(EncodeAll(texts[1..])[..k - |Encode(texts[0])|]))
  {
    CutBeyond(Encode(texts[0]), EncodeAll(texts[1..]), k);
    FirstFrameRead(texts[0], EncodeAll(texts[1..])[..k - |Encode(texts[0])|]);
  }

  lemma CutFirst(texts: seq<seq<Byte>>, k: nat)
    requires Sendable(texts) && texts != [] && k < |Encode(texts[0])|
    ensures k <= |EncodeAll(texts)| && ReadStream(EncodeAll(texts)[..k]) == Stream([], []) && WholeFrames(texts, k) == 0
  {
    CutWithin(Encode(texts[0]), EncodeAll(texts[1..]), k);
    CutFrameRead(texts[0], k);
  }

  lemma FirstThenOthers(texts: seq<seq<Byte>>, n: nat, later: Stream)
    requires n < |texts| && later == Stream(texts[1..][..n], [])
    ensures After(texts[0], later) == Stream(texts[..n + 1], [])
  {
    TakeOneMore(texts, n);
  }

  /** A stream cut after any number of bytes is read to its end, as exactly the texts whose frames it holds whole. */
  lemma {:induction false} CutStreamRead(texts: seq<seq<Byte>>, k: nat)
    requires Sendable(texts) && k <= |EncodeAll(texts)|
    ensures ReadStream(EncodeAll(texts)[..k]) == Stream(texts[..WholeFrames(texts, k)], [])
    decreases |texts|
  {
    if texts == [] {
      assert ReadStream([]) == Stream([], []);
    } else if k < |Encode(texts[0])| {
      CutFirst(texts, k);
    } else {
      var m := k - |Encode(texts[0])|;
      var later := ReadStream(EncodeAll(texts[1..])[..m]);
      CutStreamRead(texts[1..], m);
      CutStreamStep(texts, k);
      FirstThenOthers(texts, WholeFrames(texts[1..], m), later);
    }
  }

  /** Any list of texts survives the stream, with nothing left over. */
  lemma StreamRoundTrip(texts: seq<seq<Byte>>)
    requires Sendable(texts)
    ensures ReadStream(EncodeAll(texts)) == Stream(texts, [])
  {
    var s := EncodeAll(texts);
    CutStreamRead(texts, |s|);
    AllWhole(texts);
    assert s[..|s|] == s && texts[..|texts|] == texts;
  }

  lemma {:induction false} AllWhole(texts: seq<seq<Byte>>)
    requires Sendable(texts)
    ensures WholeFrames(texts, |EncodeAll(texts)|) == |texts|
    decreases |texts|
  {
    if texts != [] {
      AllWhole(texts[1..]);
    }
  }

  // ------------------------------------------------------------ implementation

  datatype Status = Filled | Eof | Failed

  /** A connected stream: what the peer will still deliver before closing, cut into pieces and
      interrupted by errors in any way the environment likes. */
  class TcpStream {
    var unread: seq<Byte>
    var sent: seq<Byte>
    var calls: nat
    const piece: nat -> nat
    const fails: nat -> bool

    constructor (unread: seq<Byte>, piece: nat -> nat, fails: nat -> bool)
      ensures this.unread == unread && sent == [] && this.piece == piece && this.fails == fails
    {
      this.unread, sent, calls := unread, [], 0;
      this.piece, this.fails := piece, fails;
    }

    ghost predicate Reliable() {
      forall k :: !fails(k)
    }

    /** At least one and at most `max` of the unread bytes, or none at the end of the stream. */
    method Read(max: nat) returns (ok: bool, data: seq<Byte>)
      requires max > 0
      modifies this`unread, this`calls
      ensures Reliable() ==> ok
      ensures !ok ==> unread == old(unread)
      ensures ok ==> old(unread) == data + unread && |data| <= max && (data == [] <==> old(unread) == [])
    {
      calls := calls + 1;
      if fails(calls) {
        return false, [];
      }
      ok := true;
      if unread == [] {
        data := [];
      } else {
        var most := if max < |unread| then max else |unread|;
        var n := 1 + piece(calls) % most;
        data := unread[..n];
        unread := unread[n..];
      }
    }

    method WriteAll(data: seq<Byte>) returns (ok: bool)
      modifies this`sent, this`calls
      ensures Reliable() ==> ok
      ensures ok ==> sent == old(sent) + data
      ensures !ok ==> old(sent) <= sent <= old(sent) + data
    {
      calls := calls + 1;
      ok := !fails(calls);
      var n := if ok || piece(calls) > |data| then |data| else piece(calls);
      sent := sent + data[..n];
    }
  }

  /** Fills the buffer whatever the pieces are, or meets the end of the stream or an error. */
  method ReadExact(stream: TcpStream, buf: array<Byte>) returns (status: Status)
    modifies stream`unread, stream`calls, buf
    ensures stream.Reliable() ==> status != Failed
    ensures status == Filled ==> |old(stream.unread)| >= buf.Length && buf[..] == old(stream.unread)[..buf.Length]
    ensures status == Filled ==> stream.unread == old(stream.unread)[buf.Length..]
    ensures status == Eof ==> |old(stream.unread)| < buf.Length && stream.unread == []
  {
    var readBytes := 0;
    while readBytes < buf.Length
      invariant 0 <= readBytes <= buf.Length && readBytes <= |old(stream.unread)|
      invariant buf[..readBytes] == old(stream.unread)[..readBytes]
      invariant stream.unread == old(stream.unread)[readBytes..]
    {
      ghost var u := old(stream.unread);
      var ok, data := stream.Read(buf.Length - readBytes);
      if !ok {
        return Failed;
      }
      if |data| == 0 {
        return Eof;
      }
      assert u[readBytes..] == data + stream.unread;
      assert u == u[..readBytes] + data + stream.unread;
      ghost var before := buf[..readBytes];
      forall i | 0 <= i < |data| {
        buf[readBytes + i] := data[i];
      }
      assert buf[..readBytes + |data|] == before + data;
      readBytes := readBytes + |data|;
    }
    status := Filled;
  }

  method Unmask(payload: array<Byte>, mask: seq<Byte>)
    requires |mask| == 4
    modifies payload
    ensures payload[..] == Masked(old(payload[..]), mask)
  {
    for i := 0 to payload.Length
      invariant forall k :: 0 <= k < i ==> payload[k] == Xor(old(payload[k]), mask[k % 4])
      invariant forall k :: i <= k < payload.Length ==> payload[k] == old(payload[k])
    {
      payload[i] := Xor(payload[i], mask[i % 4]);
    }
  }

  /** The last part of `read_ws_frame`: mask key and payload. */
  method ReadBody(stream: TcpStream, opcode: nat, masked: bool, payloadLen: nat) returns (r: ReadResult)
    modifies stream`unread, stream`calls
    ensures stream.Reliable() ==> !r.IoError?
    ensures !r.IoError? ==> Parsed(r, stream.unread) == ParseMask(old(stream.unread), opcode, masked, payloadLen)
  {
    var mask := new Byte[4](_ => 0);
    if masked {
      var status := ReadExact(stream, mask);
      if status != Filled {
        return if status == Eof then NoMore else IoError;
      }
    }
    assert !masked ==> mask[..] == [0, 0, 0, 0];
    ghost var s := stream.unread;
    var payload := new Byte[payloadLen](_ => 0);
    var status := ReadExact(stream, payload);
    if status != Filled {
      return if status == Eof then NoMore else IoError;
    }
    assert payload[..] == s[..payloadLen];
    if masked {
      Unmask(payload, mask[..]);
    }
    r := Message(if opcode == 1 then payload[..] else []);
  }

  method ReadWsFrame(stream: TcpStream) returns (r: ReadResult)
    modifies stream`unread, stream`calls
    ensures stream.Reliable() ==> !r.IoError?
    ensures !r.IoError? ==> Parsed(r, stream.unread) == Parse(old(stream.unread))
  {
    var header := new Byte[2](_ => 0);
    var status := ReadExact(stream, header);
    if status != Filled {
      return if status == Eof then NoMore else IoError;
    }
    assert header[0] == header[..][0] && header[1] == header[..][1];
    var opcode, masked, payloadLen: nat := header[0] % 16, header[1] >= 128, header[1] % 128;
    if opcode == 8 {
      return NoMore;
    }
    if payloadLen == 126 || payloadLen == 127 {
      var lenBytes := new Byte[if payloadLen == 126 then 2 else 8](_ => 0);
      status := ReadExact(stream, lenBytes);
      if status != Filled {
        return if status == Eof then NoMore else IoError;
      }
      payloadLen := FromBigEndian(lenBytes[..]);
    }
    r := ReadBody(stream, opcode, masked, payloadLen);
  }

  method WriteWsFrame(stream: TcpStream, payload: seq<Byte>) returns (ok: bool)
    requires |payload| < U64
    modifies stream`sent, stream`calls
    ensures stream.Reliable() ==> ok
    ensures ok ==> stream.sent == old(stream.sent) + Encode(payload)
    ensures !ok ==> old(stream.sent) <= stream.sent <= old(stream.sent) + Encode(payload)
  {
    var header: seq<Byte> := [0x81];
    var len := |payload|;
    if len < 126 {
      header := header + [len];
    } else if len <= 65535 {
      header := header + [126];
      header := header + BigEndian(len, 2);
    } else {
      header := header + [127];
      header := header + BigEndian(len, 8);
    }
    assert BigEndian(len, 0) == [];
    assert header == Header(len, false);
    ok := stream.WriteAll(header);
    if ok {
      ok := stream.WriteAll(payload);
      assert old(stream.sent) + header + payload == old(stream.sent) + Encode(payload);
    }
  }

  function Prepended(texts: seq<seq<Byte>>, later: Stream): Stream {
    Stream(texts + later.texts, later.rest)
  }

  lemma PrependNext(texts: seq<seq<Byte>>, text: seq<Byte>, s: seq<Byte>, rest: seq<Byte>)
    requires Parse(s) == Parsed(Message(text), rest)
    ensures |rest| < |s|
    ensures Prepended(texts, ReadStream(s)) == Prepended(texts + [text], ReadStream(rest))
  {
    var p := Parse(s);
    assert ReadStream(s) == After(p.result.text, ReadStream(p.rest));
    Regroup(texts, [text], ReadStream(rest).texts);
  }

  lemma PrependLast(texts: seq<seq<Byte>>, s: seq<Byte>, r: ReadResult, rest: seq<Byte>)
    requires !r.Message? && (!r.IoError? ==> Parsed(r, rest) == Parse(s))
    ensures texts <= Prepended(texts, ReadStream(s)).texts
    ensures !r.IoError? ==> Prepended(texts, ReadStream(s)) == Stream(texts, rest)
  {
    if !r.IoError? {
      var p := Parse(s);
      assert ReadStream(s) == Stream([], p.rest);
      assert texts + [] == texts;
    }
  }

  /** One turn of the receiving loop, in terms of what the whole stream holds. */
  method ReceiveNext(stream: TcpStream, ghost texts: seq<seq<Byte>>) returns (r: ReadResult)
    modifies stream`unread, stream`calls
    ensures stream.Reliable() ==> !r.IoError?
    ensures r.Message? ==>
      && |stream.unread| < |old(stream.unread)|
      && Prepended(texts, ReadStream(old(stream.unread))) == Prepended(texts + [r.text], ReadStream(stream.unread))
    ensures r.NoMore? ==> Prepended(texts, ReadStream(old(stream.unread))) == Stream(texts, stream.unread)
  {
    ghost var before := stream.unread;
    r := ReadWsFrame(stream);
    if r.Message? {
      PrependNext(texts, r.text, before, stream.unread);
    } else {
      PrependLast(texts, before, r, stream.unread);
    }
  }

  /** Why the receiving task stopped. */
  datatype Stop = EndOfFrames | StreamFailed | HungUp

  /** Of `n` texts none but the last was refused, and that one exactly if `hungUp`. */
  predicate FirstHangUp(hangsUp: nat -> bool, n: nat, hungUp: bool) {
    if n == 0 then !hungUp else hungUp == hangsUp(n - 1) && FirstHangUp(hangsUp, n - 1, false)
  }

  /** Hand a text on, and see whether anybody takes it. */
  method HandOn(texts: seq<seq<Byte>>, text: seq<Byte>, hangsUp: nat -> bool)
    returns (texts': seq<seq<Byte>>, hungUp: bool)
    requires FirstHangUp(hangsUp, |texts|, false)
    ensures texts' == texts + [text] && FirstHangUp(hangsUp, |texts'|, hungUp)
  {
    texts', hungUp := texts + [text], hangsUp(|texts|);
  }

  /** The receiving task: read frames until there are no more, the stream fails, or nobody takes a text any more. */
  method ReceiveAll(stream: TcpStream, hangsUp: nat -> bool) returns (texts: seq<seq<Byte>>, stop: Stop)
    modifies stream`unread, stream`calls
    ensures texts <= ReadStream(old(stream.unread)).texts
    ensures stop == EndOfFrames ==> Stream(texts, stream.unread) == ReadStream(old(stream.unread))
    ensures FirstHangUp(hangsUp, |texts|, stop == HungUp)
    ensures stop == HungUp ==> Prepended(texts, ReadStream(stream.unread)) == ReadStream(old(stream.unread))
    ensures stream.Reliable() ==> stop != StreamFailed
  {
    ghost var whole := ReadStream(stream.unread);
    texts, stop := [], StreamFailed;
    var hungUp := false;
    while !hungUp
      invariant Prepended(texts, ReadStream(stream.unread)) == whole
      invariant FirstHangUp(hangsUp, |texts|, hungUp)
      decreases !hungUp, |stream.unread|
    {
      var r := ReceiveNext(stream, texts);
      if !r.Message? {
        stop := if r.NoMore? then EndOfFrames else StreamFailed;
        return;
      }
      texts, hungUp := HandOn(texts, r.text, hangsUp);
    }
    stop := HungUp;
  }

  lemma {:induction false} EncodeAllSnoc(texts: seq<seq<Byte>>, i: nat)
    requires Sendable(texts) && i < |texts|
    ensures EncodeAll(texts[..i + 1]) == EncodeAll(texts[..i]) + Encode(texts[i])
    decreases i
  {
    if i == 0 {
      assert texts[..1] == [texts[0]] && texts[..0] == [];
      assert EncodeAll([texts[0]]) == Encode(texts[0]) + EncodeAll([]);
    } else {
      EncodeAllSnoc(texts[1..], i - 1);
      assert texts[1..][..i] == texts[..i + 1][1..] && texts[1..][..i - 1] == texts[..i][1..];
      Regroup(Encode(texts[0]), EncodeAll(texts[1..][..i - 1]), Encode(texts[i]));
    }
  }

  lemma {:induction false} EncodePrefix(texts: seq<seq<Byte>>, i: nat)
    requires Sendable(texts) && i <= |texts|
    ensures EncodeAll(texts[..i]) <= EncodeAll(texts)
    decreases |texts| - i
  {
    if i == |texts| {
      assert texts[..i] == texts;
    } else {
      EncodePrefix(texts, i + 1);
      EncodeAllSnoc(texts, i);
    }
  }

  /** Write every text as a frame, until a write fails. */
  method SendAll(stream: TcpStream, texts: seq<seq<Byte>>) returns (ok: bool)
    requires Sendable(texts) && stream.sent == []
    modifies stream`sent, stream`calls
    ensures stream.sent <= EncodeAll(texts)
    ensures ok ==> stream.sent == EncodeAll(texts)
    ensures stream.Reliable() ==> ok
  {
    var i := 0;
    assert texts[..0] == [];
    while i < |texts|
      invariant 0 <= i <= |texts| && stream.sent == EncodeAll(texts[..i])
    {
      EncodeAllSnoc(texts, i);
      EncodePrefix(texts, i + 1);
      ok := WriteWsFrame(stream, texts[i]);
      if !ok {
        return false;
      }
      i := i + 1;
    }
    assert texts[..i] == texts;
    ok := true;
  }

  /**
   * Writer, stream and reader together: whatever the writer got out before it stopped, and however
   * it is cut into pieces on the way, the reader receives exactly the texts whose frames went out
   * whole and leaves nothing unread; from a writer that does not fail it receives every text.
   */
  method Transfer(writer: TcpStream, texts: seq<seq<Byte>>, piece: nat -> nat)
    returns (received: seq<seq<Byte>>, reader: TcpStream)
    requires Sendable(texts) && writer.sent == []
    modifies writer`sent, writer`calls
    ensures fresh(reader) && reader.unread == []
    ensures received == texts[..WholeFrames(texts, |writer.sent|)]
    ensures writer.Reliable() ==> received == texts
  {
    var ok := SendAll(writer, texts);
    reader := new TcpStream(writer.sent, piece, _ => false);
    var stop;
    received, stop := ReceiveAll(reader, _ => false);
    CutStreamRead(texts, |writer.sent|);
    assert EncodeAll(texts)[..|writer.sent|] == writer.sent;
    if ok {
      AllWhole(texts);
      assert texts[..|texts|] == texts;
    }
  }
}
