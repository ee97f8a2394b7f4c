// WebSocket frames as the server reads and writes them
// (backend/internal/ws/ws.go; RFC 6455, sections 5.2 to 5.5).
module WebSocketFrames {
  import opened Wrappers

  type byte = bv8

  const MAX_MESSAGE := 8192
  const OP_CONTINUATION: byte := 0x0
  const OP_TEXT: byte := 0x1
  const OP_BINARY: byte := 0x2
  const OP_CLOSE: byte := 0x8
  const OP_PING: byte := 0x9
  const OP_PONG: byte := 0xA

  datatype Frame = Frame(opcode: byte, payload: seq<byte>, fin: bool)

  datatype FrameError =
    | EndOfInput | Extensions | Unmasked | NonMinimal | InvalidLength | TooLarge | InvalidControl

  // A frame and what follows it.
  datatype Read = Read(frame: Frame, rest: seq<byte>)

  // --- bytes and numbers ---

  // byte(n), by counting up: the conversion from numbers is not one the verifier
  // reasons about well.
  function ByteOf(n: nat): (b: byte)
    requires n < 256
    ensures b as int == n
  {
    if n == 0 then 0 else ByteOf(n - 1) + 1
  }

  lemma SameByte(a: byte, b: byte)
    requires a as int == b as int
    ensures a == b
  {
  }

  function Value(bytes: seq<byte>): nat {
    if bytes == [] then 0 else Value(bytes[..|bytes| - 1]) * 256 + bytes[|bytes| - 1] as int
  }

  function Power(k: nat): nat {
    if k == 0 then 1 else 256 * Power(k - 1)
  }

  // k bytes, most significant first.
  function BigEndian(n: nat, k: nat): (bytes: seq<byte>)
    ensures |bytes| == k
  {
    if k == 0 then [] else BigEndian(n / 256, k - 1) + [ByteOf(n % 256)]
  }

  lemma {:induction false} BigEndianValue(n: nat, k: nat)
    requires n < Power(k)
    ensures Value(BigEndian(n, k)) == n
  {
    if k != 0 {
      BigEndianValue(n / 256, k - 1);
      assert BigEndian(n, k)[..k - 1] == BigEndian(n / 256, k - 1);
    }
  }

  lemma SplitByte(q: nat, r: nat)
    requires r < 256
    ensures (q * 256 + r) / 256 == q && (q * 256 + r) % 256 == r
  {
  }

  lemma BigEndianSnoc(q: nat, last: byte, k: nat)
    ensures BigEndian(q * 256 + last as int, k + 1) == BigEndian(q, k) + [last]
  {
    hide ByteOf;
    var r := last as int;
    assert r < 256;
    SplitByte(q, r);
    SameByte(ByteOf(r), last);
  }

  lemma {:induction false} ValueBigEndian(bytes: seq<byte>)
    ensures BigEndian(Value(bytes), |bytes|) == bytes && Value(bytes) < Power(|bytes|)
  {
    hide BigEndian;
    if bytes == [] {
      NoBytes();
    } else {
      var init, last := bytes[..|bytes| - 1], bytes[|bytes| - 1];
      ValueBigEndian(init);
      BigEndianSnoc(Value(init), last, |init|);
      assert bytes == init + [last];
    }
  }

  lemma NoBytes()
    ensures BigEndian(0, 0) == []
  {
  }

  // --- masking ---

  // payload[i] ^= mask[i % 4]
  function Masked(payload: seq<byte>, mask: seq<byte>): (r: seq<byte>)
    requires |mask| == 4
    ensures |r| == |payload|
    ensures forall i :: 0 <= i < |r| ==> r[i] == payload[i] ^ mask[i % 4]
  {
    seq(|payload|, i requires 0 <= i < |payload| => payload[i] ^ mask[i % 4])
  }

  lemma XorTwice(x: byte, m: byte)
    ensures (x ^ m) ^ m == x
  {
  }

  lemma MaskedTwice(payload: seq<byte>, mask: seq<byte>)
    requires |mask| == 4
    ensures Masked(Masked(payload, mask), mask) == payload
  {
    forall i | 0 <= i < |payload|
      ensures Masked(Masked(payload, mask), mask)[i] == payload[i]
    {
      XorTwice(payload[i], mask[i % 4]);
    }
  }

  // --- reading ---

  datatype Length = Length(value: nat, rest: seq<byte>)

  // The payload length: seven bits, or two or eight more bytes, in its shortest form.
  function ReadLength(short: byte, input: seq<byte>): Result<Length, FrameError> {
    if short == 126 then
      if |input| < 2 then Failure(EndOfInput)
      else if Value(input[..2]) < 126 then Failure(NonMinimal)
      else Success(Length(Value(input[..2]), input[2..]))
    else if short == 127 then
      if |input| < 8 then Failure(EndOfInput)
      else if input[0] & 0x80 != 0 then Failure(InvalidLength)
      else if Value(input[..8]) < 65536 then Failure(NonMinimal)
      else Success(Length(Value(input[..8]), input[8..]))
    else Success(Length(short as int, input))
  }

  function ReadFrame(input: seq<byte>): Result<Read, FrameError> {
    if |input| < 2 then Failure(EndOfInput)
    else if input[0] & 0x70 != 0 then Failure(Extensions)
    else if input[1] & 0x80 == 0 then Failure(Unmasked)
    else
      var opcode, fin := input[0] & 0x0F, input[0] & 0x80 != 0;
      var length := ReadLength(input[1] & 0x7F, input[2..]);
      if length.Failure? then Failure(length.error)
      else ReadBody(opcode, fin, length.value.value, length.value.rest)
  }

  function ReadBody(opcode: byte, fin: bool, n: nat, input: seq<byte>): Result<Read, FrameError> {
    if n > MAX_MESSAGE then Failure(TooLarge)
    else if opcode >= OP_CLOSE && (!fin || n > 125) then Failure(InvalidControl)
    else if |input| < 4 + n then Failure(EndOfInput)
    else Success(Read(Frame(opcode, Masked(input[4..4 + n], input[..4]), fin), input[4 + n..]))
  }

  // --- the frames a client may send ---

  ghost predicate Acceptable(f: Frame) {
    f.opcode < 16 && |f.payload| <= MAX_MESSAGE && (f.opcode >= OP_CLOSE ==> f.fin && |f.payload| <= 125)
  }

  function FirstByte(opcode: byte, fin: bool): byte {
    if fin then 0x80 | opcode else opcode
  }

  // The length in its shortest form, the mask bit set.
  function ClientLength(n: nat): seq<byte>
    requires n <= MAX_MESSAGE
  {
    if n < 126 then [0x80 | ByteOf(n)] else [0x80 | 126] + BigEndian(n, 2)
  }

  function ClientFrame(f: Frame, mask: seq<byte>): seq<byte>
    requires Acceptable(f) && |mask| == 4
  {
    [FirstByte(f.opcode, f.fin)] + ClientLength(|f.payload|) + mask + Masked(f.payload, mask)
  }

  lemma FirstByteBits(opcode: byte, fin: bool)
    requires opcode < 16
    ensures var b := FirstByte(opcode, fin); b & 0x70 == 0 && b & 0x0F == opcode && (b & 0x80 != 0 <==> fin)
  {
  }

  lemma FirstByteOf(b: byte)
    requires b & 0x70 == 0
    ensures b & 0x0F < 16 && FirstByte(b & 0x0F, b & 0x80 != 0) == b
  {
  }

  lemma ShortLength(b: byte)
    requires b < 128
    ensures (0x80 | b) & 0x80 != 0 && (0x80 | b) & 0x7F == b
  {
  }

  lemma ShortLengthOf(b: byte)
    requires b & 0x80 != 0
    ensures 0x80 | (b & 0x7F) == b && b & 0x7F < 128
  {
  }

  lemma SmallByte(b: byte, n: nat)
    requires n < 256 && b as int == n
    ensures n < 126 ==> b < 126
    ensures b < 126 ==> n < 126
    ensures b < 128 ==> b == 126 || b == 127 || b < 126
    ensures ByteOf(n) == b
  {
    SameByte(ByteOf(n), b);
  }

  lemma TwoBytes()
    ensures Power(2) == 65536 && Power(8) == 0x1_0000_0000_0000_0000
  {
    assert Power(1) == 256 && Power(3) == 256 * Power(2) && Power(4) == 256 * Power(3);
    assert Power(5) == 256 * Power(4) && Power(6) == 256 * Power(5) && Power(7) == 256 * Power(6);
  }

  lemma LengthRoundTrip(n: nat, rest: seq<byte>)
    requires n <= MAX_MESSAGE
    ensures var enc := ClientLength(n);
            |enc| > 0 && enc[0] & 0x80 != 0
            && ReadLength(enc[0] & 0x7F, enc[1..] + rest) == Success(Length(n, rest))
  {
    if n < 126 {
      SmallByte(ByteOf(n), n);
      ShortLength(ByteOf(n));
      assert [0x80 | ByteOf(n)][1..] + rest == rest;
    } else {
      ShortLength(126);
      TwoBytes();
      BigEndianValue(n, 2);
      var enc := ClientLength(n);
      assert enc[1..] == BigEndian(n, 2);
      assert (enc[1..] + rest)[..2] == BigEndian(n, 2) && (enc[1..] + rest)[2..] == rest;
    }
  }

  // Reading back a frame a client sent gives the frame and leaves what follows.
  lemma FrameRoundTrip(f: Frame, mask: seq<byte>, rest: seq<byte>)
    requires Acceptable(f) && |mask| == 4
    ensures ReadFrame(ClientFrame(f, mask) + rest) == Success(Read(f, rest))
  {
    hide ReadLength, ClientLength;
    var n := |f.payload|;
    var body := mask + Masked(f.payload, mask) + rest;
    var input := ClientFrame(f, mask) + rest;
    LengthRoundTrip(n, body);
    FirstByteBits(f.opcode, f.fin);
    assert input == [FirstByte(f.opcode, f.fin)] + ClientLength(n) + body;
    assert input[0] == FirstByte(f.opcode, f.fin) && input[1] == ClientLength(n)[0];
    assert input[2..] == ClientLength(n)[1..] + body;
    assert body[..4] == mask && body[4..4 + n] == Masked(f.payload, mask) && body[4 + n..] == rest;
    MaskedTwice(f.payload, mask);
  }

  lemma LengthIsCanonical(b: byte, input: seq<byte>)
    requires b & 0x80 != 0 && ReadLength(b & 0x7F, input).Success?
    ensures var r := ReadLength(b & 0x7F, input).value;
            r.value <= MAX_MESSAGE ==> [b] + input == ClientLength(r.value) + r.rest
  {
    ShortLengthOf(b);
    var short := b & 0x7F;
    var r := ReadLength(short, input).value;
    if short == 126 {
      ValueBigEndian(input[..2]);
      assert input == input[..2] + input[2..];
      if r.value <= MAX_MESSAGE {
        assert [b] + input == [b] + input[..2] + input[2..];
      }
    } else if short != 127 {
      SmallByte(short, short as int);
    }
  }

  // Everything that is read is such an encoding: the mask it came with fixes the
  // bytes, so no two encodings of a frame under one mask are both accepted.
  lemma AcceptedIsCanonical(input: seq<byte>)
    requires ReadFrame(input).Success?
    ensures var r := ReadFrame(input).value;
            Acceptable(r.frame)
            && exists mask: seq<byte> :: |mask| == 4 && input == ClientFrame(r.frame, mask) + r.rest
  {
    hide ReadLength, ClientLength, ReadBody, FirstByte, ClientFrame;
    FirstByteOf(input[0]);
    LengthIsCanonical(input[1], input[2..]);
    var length := ReadLength(input[1] & 0x7F, input[2..]).value;
    BodyIsCanonical(input[0] & 0x0F, input[0] & 0x80 != 0, length.value, length.rest);
    Joined(input, length.rest, ReadFrame(input).value);
  }

  lemma Joined(input: seq<byte>, body: seq<byte>, r: Read)
    requires Acceptable(r.frame) && |input| >= 2 && |body| >= 4 && input[0] == FirstByte(r.frame.opcode, r.frame.fin)
    requires [input[1]] + input[2..] == ClientLength(|r.frame.payload|) + body
    requires body == body[..4] + Masked(r.frame.payload, body[..4]) + r.rest
    ensures input == ClientFrame(r.frame, body[..4]) + r.rest
  {
    hide FirstByte, ClientLength, Masked;
    assert input == [input[0]] + ([input[1]] + input[2..]);
  }

  lemma BodyIsCanonical(opcode: byte, fin: bool, n: nat, input: seq<byte>)
    requires opcode < 16 && ReadBody(opcode, fin, n, input).Success?
    ensures var r := ReadBody(opcode, fin, n, input).value;
            |input| >= 4 && Acceptable(r.frame) && |r.frame.payload| == n && r.frame.opcode == opcode && r.frame.fin == fin
            && input == input[..4] + Masked(r.frame.payload, input[..4]) + r.rest
  {
    MaskedTwice(input[4..4 + n], input[..4]);
    assert input == input[..4] + input[4..4 + n] + input[4 + n..];
  }

  // A frame takes at least six bytes.
  lemma FrameTakesSix(input: seq<byte>)
    requires ReadFrame(input).Success?
    ensures |ReadFrame(input).value.rest| + 6 <= |input|
  {
  }

  // No encoding of a frame is the beginning of another.
  lemma FramesDelimitThemselves(f: Frame, m: seq<byte>, rest: seq<byte>, g: Frame, k: seq<byte>, rest': seq<byte>)
    requires Acceptable(f) && Acceptable(g) && |m| == 4 && |k| == 4
    requires ClientFrame(f, m) + rest == ClientFrame(g, k) + rest'
    ensures f == g && rest == rest'
  {
    hide ClientFrame, ReadFrame;
    FrameRoundTrip(f, m, rest);
    FrameRoundTrip(g, k, rest');
  }

  // --- writing ---

  predicate Control(opcode: byte) {
    opcode == OP_PING || opcode == OP_PONG || opcode == OP_CLOSE
  }

  // Control payloads are cut at 125 bytes.
  function Cut(opcode: byte, payload: seq<byte>): seq<byte> {
    if Control(opcode) && |payload| > 125 then payload[..125] else payload
  }

  function ServerLength(n: nat): seq<byte> {
    if n < 126 then [ByteOf(n)]
    else if n <= 65535 then [126] + BigEndian(n, 2)
    else [127] + BigEndian(n, 8)
  }

  // One final, unmasked frame.
  function ServerFrame(opcode: byte, payload: seq<byte>): seq<byte> {
    [0x80 | opcode] + ServerLength(|Cut(opcode, payload)|) + Cut(opcode, payload)
  }

  // How a peer reads the length of section 5.2, in any of its three forms.
  function PeerLength(input: seq<byte>): Option<Length> {
    if input == [] then None
    else if input[0] & 0x80 != 0 then None
    else if input[0] == 126 then
      if |input| < 3 then None else Some(Length(Value(input[1..3]), input[3..]))
    else if input[0] == 127 then
      if |input| < 9 then None else Some(Length(Value(input[1..9]), input[9..]))
    else Some(Length(input[0] as int, input[1..]))
  }

  // How many bytes a form of the length takes, and the shortest that will do.
  function LengthBytes(n: nat): nat {
    if n <= 125 then 1 else if n < 0x1_0000 then 3 else 9
  }

  lemma PlainLength(b: byte, n: nat)
    requires b as int == n && n < 126
    ensures b & 0x80 == 0 && b != 126 && b != 127
  {
  }

  lemma PeerReadsLength(n: nat, rest: seq<byte>)
    requires n < 0x8000_0000_0000_0000
    ensures PeerLength(ServerLength(n) + rest) == Some(Length(n, rest)) && |ServerLength(n)| == LengthBytes(n)
  {
    hide ByteOf, BigEndian, Value;
    TwoBytes();
    var after := ServerLength(n) + rest;
    if n < 126 {
      PlainLength(ByteOf(n), n);
      assert after[1..] == rest;
    } else if n <= 65535 {
      BigEndianValue(n, 2);
      assert after[1..3] == BigEndian(n, 2) && after[3..] == rest;
    } else {
      BigEndianValue(n, 8);
      assert after[1..9] == BigEndian(n, 8) && after[9..] == rest;
    }
  }

  // What is written is read back: the length in its shortest form and then
  // exactly the payload, for every length a frame can announce.
  lemma ServerFrameReads(opcode: byte, payload: seq<byte>, rest: seq<byte>)
    requires opcode < 16 && |payload| < 0x8000_0000_0000_0000
    ensures var bytes := ServerFrame(opcode, payload);
            var sent := Cut(opcode, payload);
            bytes[0] & 0x80 != 0 && bytes[0] & 0x70 == 0 && bytes[0] & 0x0F == opcode
            && PeerLength(bytes[1..] + rest) == Some(Length(|sent|, sent + rest))
            && |bytes| == 1 + LengthBytes(|sent|) + |sent|
            && (Control(opcode) ==> |sent| <= 125) && (!Control(opcode) ==> sent == payload)
  {
    hide ServerLength, PeerLength, LengthBytes;
    FirstByteBits(opcode, true);
    var sent := Cut(opcode, payload);
    PeerReadsLength(|sent|, sent + rest);
    assert ServerFrame(opcode, payload)[1..] + rest == ServerLength(|sent|) + (sent + rest);
  }
}
