// A server-side connection: reading frames and messages off the socket, queueing
// frames and writing them (Conn in backend/internal/ws/ws.go).
module WebSocketConn {
  import opened Wrappers
  import opened Sequences
  import opened WebSocketFrames
  import opened WebSocketMessages

  const SEND_QUEUE := 64

  datatype Outgoing = Outgoing(opcode: byte, payload: seq<byte>)

  // A queue that is full means the peer is too slow, and closes the connection.
  datatype Queue = Queue(send: seq<Outgoing>, closed: bool)

  function Enqueued(q: Queue, f: Outgoing): Queue {
    if q.closed then q
    else if |q.send| < SEND_QUEUE then q.(send := q.send + [f])
    else q.(closed := true)
  }

  function PongsQueued(q: Queue, pings: seq<seq<byte>>): Queue
    decreases |pings|
  {
    if pings == [] then q else PongsQueued(Enqueued(q, Outgoing(OP_PONG, pings[0])), pings[1..])
  }

  lemma {:induction false} PongsQueuedSnoc(q: Queue, pings: seq<seq<byte>>, p: seq<byte>)
    ensures PongsQueued(q, pings + [p]) == Enqueued(PongsQueued(q, pings), Outgoing(OP_PONG, p))
    decreases |pings|
  {
    if pings == [] {
      assert pings + [p] == [p] && [p][1..] == [];
    } else {
      assert (pings + [p])[1..] == pings[1..] + [p];
      PongsQueuedSnoc(Enqueued(q, Outgoing(OP_PONG, pings[0])), pings[1..], p);
    }
  }

  // Pings are answered in order for as long as there is room; one more closes the
  // connection, and the queue never holds more than it may.
  lemma {:induction false} PongsFit(q: Queue, pings: seq<seq<byte>>)
    requires !q.closed && |q.send| + |pings| <= SEND_QUEUE
    ensures PongsQueued(q, pings) == Queue(q.send + Pongs(pings), false)
    decreases |pings|
  {
    if pings != [] {
      var f := Outgoing(OP_PONG, pings[0]);
      PongsFit(Enqueued(q, f), pings[1..]);
      assert q.send + [f] + Pongs(pings[1..]) == q.send + Pongs(pings);
    }
  }

  lemma {:induction false} PongsOverflow(q: Queue, pings: seq<seq<byte>>)
    requires !q.closed && |q.send| <= SEND_QUEUE < |q.send| + |pings|
    ensures var r := PongsQueued(q, pings);
            r.closed && |r.send| == SEND_QUEUE && r.send <= q.send + Pongs(pings)
    decreases |pings|
  {
    var f := Outgoing(OP_PONG, pings[0]);
    if |q.send| < SEND_QUEUE {
      PongsOverflow(Enqueued(q, f), pings[1..]);
      assert q.send + [f] + Pongs(pings[1..]) == q.send + Pongs(pings);
    } else {
      ClosedStays(Enqueued(q, f), pings[1..]);
    }
  }

  function Pongs(pings: seq<seq<byte>>): seq<Outgoing> {
    if pings == [] then [] else [Outgoing(OP_PONG, pings[0])] + Pongs(pings[1..])
  }

  lemma {:induction false} ClosedStays(q: Queue, pings: seq<seq<byte>>)
    requires q.closed
    ensures PongsQueued(q, pings) == q
    decreases |pings|
  {
    if pings != [] {
      ClosedStays(q, pings[1..]);
    }
  }

  class Conn {
    // What the peer has sent and not been read, and what has been written.
    var input: seq<byte>
    var output: seq<byte>
    var queue: Queue

    constructor (bytes: seq<byte>)
      ensures input == bytes && output == [] && queue == Queue([], false)
    {
      input, output, queue := bytes, [], Queue([], false);
    }

    // io.ReadFull
    method ReadFull(buf: array<byte>) returns (ok: bool)
      modifies this`input, buf
      ensures ok <==> buf.Length <= |old(input)|
      ensures ok ==> buf[..] == old(input)[..buf.Length] && input == old(input)[buf.Length..]
    {
      if |input| < buf.Length {
        input := [];
        return false;
      }
      var i := 0;
      while i < buf.Length
        invariant i <= buf.Length && input == old(input) && buf[..i] == input[..i]
      {
        buf[i] := input[i];
        i := i + 1;
      }
      input := input[buf.Length..];
      return true;
    }

    // The length after its seven-bit form.
    method ReadLength(short: byte) returns (r: Result<nat, FrameError>)
      modifies this`input
      ensures r.Success? ==> WebSocketFrames.ReadLength(short, old(input)) == Success(Length(r.value, input))
      ensures r.Failure? ==> WebSocketFrames.ReadLength(short, old(input)) == Failure(r.error)
    {
      if short == 126 {
        var b := new byte[2];
        var ok := ReadFull(b);
        if !ok {
          return Failure(EndOfInput);
        }
        if Value(b[..]) < 126 {
          return Failure(NonMinimal);
        }
        return Success(Value(b[..]));
      } else if short == 127 {
        var b := new byte[8];
        var ok := ReadFull(b);
        if !ok {
          return Failure(EndOfInput);
        }
        if b[0] & 0x80 != 0 {
          return Failure(InvalidLength);
        }
        if Value(b[..]) < 65536 {
          return Failure(NonMinimal);
        }
        return Success(Value(b[..]));
      }
      return Success(short as int);
    }

    method ReadFrame() returns (r: Result<Frame, FrameError>)
      modifies this`input
      ensures r.Success? ==> WebSocketFrames.ReadFrame(old(input)) == Success(Read(r.value, input))
      ensures r.Failure? ==> WebSocketFrames.ReadFrame(old(input)) == Failure(r.error)
    {
      hide WebSocketFrames.ReadLength, ReadBody;
      var head := new byte[2];
      var ok := ReadFull(head);
      if !ok {
        return Failure(EndOfInput);
      }
      assert head[0] == old(input)[0] && head[1] == old(input)[1] by { assert head[..] == old(input)[..2]; }
      if head[0] & 0x70 != 0 {
        return Failure(Extensions);
      }
      if head[1] & 0x80 == 0 {
        return Failure(Unmasked);
      }
      var length := ReadLength(head[1] & 0x7F);
      if length.Failure? {
        return Failure(length.error);
      }
      r := ReadRest(head[0] & 0x0F, head[0] & 0x80 != 0, length.value);
    }

    // Mask and payload, unmasked in place.
    method ReadRest(opcode: byte, fin: bool, length: nat) returns (r: Result<Frame, FrameError>)
      modifies this`input
      ensures r.Success? ==> ReadBody(opcode, fin, length, old(input)) == Success(Read(r.value, input))
      ensures r.Failure? ==> ReadBody(opcode, fin, length, old(input)) == Failure(r.error)
    {
      ghost var all := input;
      if length > MAX_MESSAGE {
        return Failure(TooLarge);
      }
      if opcode >= OP_CLOSE && (!fin || length > 125) {
        return Failure(InvalidControl);
      }
      var mask := new byte[4];
      var ok := ReadFull(mask);
      if !ok {
        return Failure(EndOfInput);
      }
      var payload := new byte[length];
      ok := ReadFull(payload);
      if !ok {
        return Failure(EndOfInput);
      }
      assert payload[..] == all[4..4 + length] && input == all[4 + length..];
      UnmaskInPlace(payload, mask);
      return Success(Frame(opcode, payload[..], fin));
    }

    method Enqueue(f: Outgoing) returns (ok: bool)
      modifies this`queue
      ensures queue == Enqueued(old(queue), f)
      ensures ok <==> queue.send == old(queue).send + [f]
    {
      if queue.closed {
        return false;
      }
      if |queue.send| < SEND_QUEUE {
        queue := queue.(send := queue.send + [f]);
        return true;
      }
      queue := queue.(closed := true);
      return false;
    }

    method ReadMessage() returns (r: Result<seq<byte>, MessageError>, ghost pings: seq<seq<byte>>)
      modifies this`input, this`queue
      ensures r.Success? ==> WebSocketMessages.ReadMessage(old(input), [], false, []) == Success(Message(r.value, input, pings))
      ensures r.Failure? ==> WebSocketMessages.ReadMessage(old(input), [], false, []) == Failure(r.error)
      ensures queue == PongsQueued(old(queue), pings)
    {
      hide WebSocketFrames.ReadFrame;
      var data: seq<byte> := [];
      var fragmented := false;
      pings := [];
      while true
        invariant WebSocketMessages.ReadMessage(old(input), [], false, [])
               == WebSocketMessages.ReadMessage(input, data, fragmented, pings)
        invariant queue == PongsQueued(old(queue), pings)
        decreases |input|
      {
        ghost var before := input;
        var frame := ReadFrame();
        if frame.Failure? {
          return Failure(Broken(frame.error)), pings;
        }
        FrameTakesSix(before);
        var f := frame.value;
        if f.opcode == OP_CLOSE {
          return Failure(PeerClosed), pings;
        } else if f.opcode == OP_PING {
          // The pong is dropped, and the connection with it, when the queue is full.
          var queued := Enqueue(Outgoing(OP_PONG, f.payload));
          PongsQueuedSnoc(old(queue), pings, f.payload);
          pings := pings + [f.payload];
        } else if f.opcode == OP_PONG {
        } else if f.opcode == OP_TEXT || f.opcode == OP_BINARY {
          if fragmented {
            return Failure(NewDataFrame), pings;
          }
          if |data| + |f.payload| > MAX_MESSAGE {
            return Failure(MessageTooLarge), pings;
          }
          data := data + f.payload;
          if f.fin {
            return Success(data), pings;
          }
          fragmented := true;
        } else if f.opcode == OP_CONTINUATION {
          if !fragmented {
            return Failure(NoMessageOpen), pings;
          }
          if |data| + |f.payload| > MAX_MESSAGE {
            return Failure(MessageTooLarge), pings;
          }
          data := data + f.payload;
          if f.fin {
            return Success(data), pings;
          }
        } else {
          return Failure(UnsupportedOpcode), pings;
        }
      }
    }

    method WriteFrame(opcode: byte, payload: seq<byte>)
      requires |payload| < 0x8000_0000_0000_0000
      modifies this`output
      ensures output == old(output) + ServerFrame(opcode, payload)
    {
      hide ServerLength;
      var sent := payload;
      if opcode == OP_PING || opcode == OP_PONG || opcode == OP_CLOSE {
        if |sent| > 125 {
          sent := sent[..125];
        }
      }
      var length := WriteLength(|sent|);
      output := output + ([0x80 | opcode] + length + sent);
    }
  }

  method WriteLength(l: nat) returns (buf: seq<byte>)
    ensures buf == ServerLength(l)
  {
    if l < 126 {
      buf := [ByteOf(l)];
    } else if l <= 65535 {
      TwoDigits(l);
      buf := [126, ByteOf(l / 256), ByteOf(l % 256)];
    } else {
      buf := [127];
      buf := buf + BigEndian(l, 8);
    }
  }

  lemma TwoDigits(n: nat)
    requires n <= 65535
    ensures n / 256 < 256 && [126, ByteOf(n / 256), ByteOf(n % 256)] == [126] + BigEndian(n, 2)
  {
    hide ByteOf;
    OneDigit(n / 256);
    assert BigEndian(n, 2) == BigEndian(n / 256, 1) + [ByteOf(n % 256)];
  }

  lemma OneDigit(n: nat)
    requires n < 256
    ensures BigEndian(n, 1) == [ByteOf(n)]
  {
    hide ByteOf;
    SmallMod(n, 256);
    var none := BigEndian(n / 256, 0);
    assert none == [];
    assert none + [ByteOf(n)] == [ByteOf(n)];
  }

  method UnmaskInPlace(payload: array<byte>, mask: array<byte>)
    requires mask.Length == 4 && payload != mask
    modifies payload
    ensures payload[..] == Masked(old(payload[..]), mask[..])
  {
    var i := 0;
    while i < payload.Length
      invariant i <= payload.Length && mask[..] == old(mask[..])
      invariant forall j :: 0 <= j < i ==> payload[j] == old(payload[j]) ^ mask[j % 4]
      invariant forall j :: i <= j < payload.Length ==> payload[j] == old(payload[j])
    {
      payload[i] := payload[i] ^ mask[i % 4];
      i := i + 1;
    }
  }
}
