// Messages over frames: fragmentation, and control frames in between
// (readMessage in backend/internal/ws/ws.go; RFC 6455, sections 5.4 and 5.5).
module WebSocketMessages {
  import opened Wrappers
  import opened WebSocketFrames

  datatype MessageError =
    | Broken(error: FrameError) | PeerClosed | NewDataFrame | NoMessageOpen | MessageTooLarge | UnsupportedOpcode

  // A whole message, what follows it, and the pings met on the way.
  datatype Message = Message(data: seq<byte>, rest: seq<byte>, pings: seq<seq<byte>>)

  // The loop of readMessage from where it stands.
  function ReadMessage(input: seq<byte>, data: seq<byte>, fragmented: bool, pings: seq<seq<byte>>): Result<Message, MessageError>
    decreases |input|, 0
  {
    var r := ReadFrame(input);
    if r.Failure? then Failure(Broken(r.error))
    else
      FrameTakesSix(input);
      var f, rest := r.value.frame, r.value.rest;
      if f.opcode == OP_CLOSE then Failure(PeerClosed)
      else if f.opcode == OP_PING then ReadMessage(rest, data, fragmented, pings + [f.payload])
      else if f.opcode == OP_PONG then ReadMessage(rest, data, fragmented, pings)
      else if f.opcode == OP_TEXT || f.opcode == OP_BINARY then
        if fragmented then Failure(NewDataFrame) else Append(f, rest, data, pings)
      else if f.opcode == OP_CONTINUATION then
        if !fragmented then Failure(NoMessageOpen) else Append(f, rest, data, pings)
      else Failure(UnsupportedOpcode)
  }

  function Append(f: Frame, rest: seq<byte>, data: seq<byte>, pings: seq<seq<byte>>): Result<Message, MessageError>
    decreases |rest|, 1
  {
    if |data| + |f.payload| > MAX_MESSAGE then Failure(MessageTooLarge)
    else if f.fin then Success(Message(data + f.payload, rest, pings))
    else ReadMessage(rest, data + f.payload, true, pings)
  }

  // --- what a client may send as one message ---

  datatype Sent = Sent(frame: Frame, mask: seq<byte>)

  ghost predicate Sendable(s: seq<Sent>) {
    forall x :: x in s ==> Acceptable(x.frame) && |x.mask| == 4
  }

  ghost function Wire(s: seq<Sent>): seq<byte>
    requires Sendable(s)
  {
    if s == [] then [] else ClientFrame(s[0].frame, s[0].mask) + Wire(s[1..])
  }

  predicate KeepAlive(f: Frame) {
    f.opcode == OP_PING || f.opcode == OP_PONG
  }

  // A text or binary frame, then continuations, the last of them final; pings
  // and pongs anywhere before the end. With `fragmented` the first is behind us.
  predicate OneMessage(s: seq<Sent>, fragmented: bool) {
    s != []
    && var f := s[0].frame;
       if KeepAlive(f) then OneMessage(s[1..], fragmented)
       else
         (if fragmented then f.opcode == OP_CONTINUATION else f.opcode == OP_TEXT || f.opcode == OP_BINARY)
         && if f.fin then |s| == 1 else OneMessage(s[1..], true)
  }

  function Body(s: seq<Sent>): seq<byte> {
    if s == [] then [] else if KeepAlive(s[0].frame) then Body(s[1..]) else s[0].frame.payload + Body(s[1..])
  }

  function Pings(s: seq<Sent>): seq<seq<byte>> {
    if s == [] then []
    else if s[0].frame.opcode == OP_PING then [s[0].frame.payload] + Pings(s[1..])
    else Pings(s[1..])
  }

  lemma FirstOnWire(s: seq<Sent>, rest: seq<byte>)
    requires Sendable(s) && s != []
    ensures Sendable(s[1..]) && Acceptable(s[0].frame) && |s[0].mask| == 4
    ensures Wire(s) + rest == ClientFrame(s[0].frame, s[0].mask) + (Wire(s[1..]) + rest)
    ensures ReadFrame(Wire(s) + rest) == Success(Read(s[0].frame, Wire(s[1..]) + rest))
  {
    hide ClientFrame, ReadFrame;
    assert s[0] in s;
    FrameRoundTrip(s[0].frame, s[0].mask, Wire(s[1..]) + rest);
    assert Wire(s) + rest == ClientFrame(s[0].frame, s[0].mask) + (Wire(s[1..]) + rest);
  }

  // However a message is cut into frames and whatever pings and pongs come in
  // between, it is put together again whole, or refused when it is too long.
  lemma {:induction false} MessageReassembled(s: seq<Sent>, rest: seq<byte>, data: seq<byte>, fragmented: bool, pings: seq<seq<byte>>)
    requires Sendable(s) && OneMessage(s, fragmented) && |data| <= MAX_MESSAGE
    ensures ReadMessage(Wire(s) + rest, data, fragmented, pings)
         == if |data| + |Body(s)| <= MAX_MESSAGE then Success(Message(data + Body(s), rest, pings + Pings(s)))
            else Failure(MessageTooLarge)
    decreases |s|
  {
    hide ReadFrame, ClientFrame, Wire;
    FirstOnWire(s, rest);
    var f := s[0].frame;
    if f.opcode == OP_PING {
      MessageReassembled(s[1..], rest, data, fragmented, pings + [f.payload]);
      assert pings + [f.payload] + Pings(s[1..]) == pings + Pings(s);
    } else if f.opcode == OP_PONG {
      MessageReassembled(s[1..], rest, data, fragmented, pings);
    } else if f.fin {
      NothingLeft(s, rest);
      assert Body(s) == f.payload && pings + Pings(s) == pings;
    } else if |data| + |f.payload| <= MAX_MESSAGE {
      MessageReassembled(s[1..], rest, data + f.payload, true, pings);
      assert data + f.payload + Body(s[1..]) == data + Body(s);
    }
  }

  lemma NothingLeft(s: seq<Sent>, rest: seq<byte>)
    requires Sendable(s) && |s| == 1
    ensures Sendable(s[1..]) && Wire(s[1..]) + rest == rest && Body(s[1..]) == [] && Pings(s[1..]) == []
  {
    assert s[1..] == [];
  }

  // What the message holds, and that nothing else was read.
  ghost predicate Explains(s: seq<Sent>, input: seq<byte>, data: seq<byte>, fragmented: bool, pings: seq<seq<byte>>, m: Message) {
    Sendable(s) && OneMessage(s, fragmented) && input == Wire(s) + m.rest
    && m.data == data + Body(s) && m.pings == pings + Pings(s)
  }

  // Only such sequences of frames are ever read as a message.
  lemma {:induction false} OnlyMessagesAccepted(input: seq<byte>, data: seq<byte>, fragmented: bool, pings: seq<seq<byte>>)
    requires ReadMessage(input, data, fragmented, pings).Success? && |data| <= MAX_MESSAGE
    ensures var m := ReadMessage(input, data, fragmented, pings).value;
            |m.data| <= MAX_MESSAGE && exists s :: Explains(s, input, data, fragmented, pings, m)
    decreases |input|
  {
    hide ReadFrame, ClientFrame, Explains;
    FrameTakesSix(input);
    AcceptedIsCanonical(input);
    var r := ReadFrame(input).value;
    var f := r.frame;
    var mask: seq<byte> :| |mask| == 4 && input == ClientFrame(f, mask) + r.rest;
    var m := ReadMessage(input, data, fragmented, pings).value;
    if KeepAlive(f) {
      var pings' := if f.opcode == OP_PING then pings + [f.payload] else pings;
      OnlyMessagesAccepted(r.rest, data, fragmented, pings');
      var s :| Explains(s, r.rest, data, fragmented, pings', m);
      Prepended(Sent(f, mask), s, input, r.rest, data, fragmented, pings, m);
    } else if f.fin {
      LastFrame(Sent(f, mask), input, data, fragmented, pings, m);
    } else {
      OnlyMessagesAccepted(r.rest, data + f.payload, true, pings);
      var s :| Explains(s, r.rest, data + f.payload, true, pings, m);
      Prepended(Sent(f, mask), s, input, r.rest, data, fragmented, pings, m);
    }
  }

  lemma Prepended(x: Sent, s: seq<Sent>, input: seq<byte>, rest: seq<byte>, data: seq<byte>, fragmented: bool, pings: seq<seq<byte>>, m: Message)
    requires Acceptable(x.frame) && |x.mask| == 4 && input == ClientFrame(x.frame, x.mask) + rest
    requires KeepAlive(x.frame) ==>
               Explains(s, rest, data, fragmented, if x.frame.opcode == OP_PING then pings + [x.frame.payload] else pings, m)
    requires !KeepAlive(x.frame) ==> Explains(s, rest, data + x.frame.payload, true, pings, m) && !x.frame.fin
    requires !KeepAlive(x.frame) ==>
               if fragmented then x.frame.opcode == OP_CONTINUATION else x.frame.opcode == OP_TEXT || x.frame.opcode == OP_BINARY
    ensures Explains([x] + s, input, data, fragmented, pings, m)
  {
    hide ClientFrame;
    var t := [x] + s;
    assert t[1..] == s && t[0] == x;
    assert input == Wire(t) + m.rest;
  }

  lemma LastFrame(x: Sent, input: seq<byte>, data: seq<byte>, fragmented: bool, pings: seq<seq<byte>>, m: Message)
    requires Acceptable(x.frame) && |x.mask| == 4 && input == ClientFrame(x.frame, x.mask) + m.rest && x.frame.fin
    requires if fragmented then x.frame.opcode == OP_CONTINUATION else x.frame.opcode == OP_TEXT || x.frame.opcode == OP_BINARY
    requires m.data == data + x.frame.payload && m.pings == pings
    ensures Explains([x], input, data, fragmented, pings, m)
  {
    hide ClientFrame;
    assert [x][1..] == [];
    assert Wire([x]) == ClientFrame(x.frame, x.mask);
    assert Body([x]) == x.frame.payload && Pings([x]) == [];
  }
}
