/** Message framing of Entangleware/ew_tcpendpoint.py over a socket modelled
    as a byte sink and a byte source. A frame is a 16-byte big-endian header
    (`>QLL`: message id, message type, payload length) followed by the payload. */
module Framing {
  import opened Base
  import opened Wire

  /** A message as `sendmsg` takes it and `getmsg` returns it. */
  datatype Message = Message(payload: seq<byte>, id: int, msgType: int)

  const ChunkSize: nat := 512
  const HeaderSize: nat := 16

  /** `struct.pack(">QLL", msgid, msgtype, length)`. */
  function Header(id: int, msgType: int, length: int): (r: Result<seq<byte>>)
    ensures r.Ok? <==> 0 <= id < 0x1_0000_0000_0000_0000 && 0 <= msgType < U32Limit && 0 <= length < U32Limit
    ensures r.Ok? ==> |r.value| == HeaderSize
    ensures r.Err? ==> r.error == StructError
  {
    var a :- PackU64(id);
    var b :- PackU32(msgType);
    var c :- PackU32(length);
    Ok(a + b + c)
  }

  /** `struct.unpack(">QLL", header)`: id, type and length; any other length than 16 bytes is `struct.error`. */
  function DecodeHeader(h: seq<byte>): (r: Result<(int, int, int)>)
    ensures r.Ok? <==> |h| == HeaderSize
    ensures r.Ok? ==> 0 <= r.value.0 && 0 <= r.value.1 < U32Limit && 0 <= r.value.2 < U32Limit
  {
    if |h| != HeaderSize then Err(StructError)
    else
      FromBigEndianBound(h[8..12]);
      FromBigEndianBound(h[12..16]);
      Pow256Values();
      Ok((FromBigEndian(h[..8]), FromBigEndian(h[8..12]), FromBigEndian(h[12..16])))
  }

  /** The bytes `sendmsg` puts on the wire: header then payload. */
  function Frame(m: Message): (r: Result<seq<byte>>)
    ensures r.Ok? ==> |r.value| == HeaderSize + |m.payload| && r.value[HeaderSize..] == m.payload
    ensures r.Err? ==> r.error == StructError
  {
    var h :- Header(m.id, m.msgType, |m.payload|);
    Ok(h + m.payload)
  }

  /** The message at the front of a byte stream, when a whole frame is there. */
  function FrameAt(stream: seq<byte>): (r: Result<Message>)
    ensures r.Ok? ==> HeaderSize + |r.value.payload| <= |stream|
  {
    if |stream| < HeaderSize then Err(StructError)
    else
      var fields := DecodeHeader(stream[..HeaderSize]).value;
      if HeaderSize + fields.2 > |stream| then Err(Timeout)
      else Ok(Message(stream[HeaderSize..HeaderSize + fields.2], fields.0, fields.1))
  }

  /** Decoding a header gives back the fields it was packed from. */
  lemma HeaderRoundTrip(id: int, msgType: int, length: int)
    requires Header(id, msgType, length).Ok?
    ensures DecodeHeader(Header(id, msgType, length).value) == Ok((id, msgType, length))
  {
    var h := Header(id, msgType, length).value;
    var a, b, c := PackU64(id).value, PackU32(msgType).value, PackU32(length).value;
    assert h == a + b + c;
    assert h[..8] == a && h[8..12] == b && h[12..16] == c;
  }

  /** Round trip: the frame of a message, followed by anything, decodes to that
      message, also for an empty payload. */
  lemma FrameRoundTrip(m: Message, rest: seq<byte>)
    requires Frame(m).Ok?
    ensures FrameAt(Frame(m).value + rest) == Ok(m)
  {
    var f := Frame(m).value;
    var s := f + rest;
    HeaderRoundTrip(m.id, m.msgType, |m.payload|);
    assert s[..HeaderSize] == Header(m.id, m.msgType, |m.payload|).value;
    assert s[HeaderSize..HeaderSize + |m.payload|] == m.payload;
  }

  /** A frame can be built exactly when the id fits in 64 bits, the type in 32
      bits and the payload is shorter than 2^32 bytes. */
  lemma FrameDefined(m: Message)
    ensures Frame(m).Ok? <==> 0 <= m.id < 0x1_0000_0000_0000_0000 && 0 <= m.msgType < U32Limit && |m.payload| < U32Limit
  {
  }

  /** The bytes of a queue of messages sent one after another: their frames,
      concatenated, when every one of them can be framed. */
  function Stream(ms: seq<Message>): (r: Result<seq<byte>>)
    ensures r.Ok? <==> forall i :: 0 <= i < |ms| ==> Frame(ms[i]).Ok?
    ensures ms == [] ==> r == Ok([])
    decreases |ms|
  {
    if ms == [] then Ok([])
    else
      var f :- Frame(ms[0]);
      var rest :- Stream(ms[1..]);
      Ok(f + rest)
  }

  /** The front of the byte stream of a queue is the queue's first message,
      and after its frame comes the stream of the rest of the queue. */
  lemma StreamFront(ms: seq<Message>)
    requires ms != [] && Stream(ms).Ok?
    ensures FrameAt(Stream(ms).value) == Ok(ms[0])
    ensures Stream(ms).value[HeaderSize + |ms[0].payload|..] == Stream(ms[1..]).value
  {
    var f, rest := Frame(ms[0]).value, Stream(ms[1..]).value;
    assert Stream(ms).value == f + rest;
    FrameRoundTrip(ms[0], rest);
    assert (f + rest)[|f|..] == rest;
  }

  /** Every size of a chunk schedule is at least one byte. */
  predicate Positive(caps: seq<nat>)
  {
    forall i :: 0 <= i < |caps| ==> caps[i] >= 1
  }

  /** The part of an n-byte request the next call of a schedule transfers:
      all of it once the schedule has run out, otherwise at most its next size. */
  function Cap(caps: seq<nat>, n: nat): (r: nat)
    ensures r <= n && (n >= 1 && Positive(caps) ==> r >= 1)
    ensures caps == [] || caps[0] >= n ==> r == n
  {
    if caps == [] then n else Min(n, caps[0])
  }

  /** The schedule after one call. */
  function Later(caps: seq<nat>): (r: seq<nat>)
    ensures Positive(caps) ==> Positive(r)
    ensures caps == [] ==> r == []
    ensures caps != [] ==> r == caps[1..]
  {
    if caps == [] then [] else caps[1..]
  }

  /** The socket below `TcpEndPoint`: what it has accepted so far, the sizes of
      the chunks offered to `send`, and the bytes still to arrive. How much one
      `send`, `recv` or `recv_into` call transfers is the network's choice: the
      socket carries a schedule of sizes, one per call, and a call moves the
      smaller of the request and the next size. As every schedule of positive
      sizes is allowed, a property proved for every socket holds for every
      sequence of partial transfers. */
  class Socket {
    var sent: seq<byte>
    var offered: seq<nat>
    var incoming: seq<byte>
    var sendCaps: seq<nat>
    var recvCaps: seq<nat>

    predicate Valid()
      reads this
    {
      Positive(sendCaps) && Positive(recvCaps)
    }

    constructor (incoming: seq<byte>, sendCaps: seq<nat>, recvCaps: seq<nat>)
      requires Positive(sendCaps) && Positive(recvCaps)
      ensures Valid() && this.incoming == incoming && this.sendCaps == sendCaps && this.recvCaps == recvCaps
      ensures sent == [] && offered == []
    {
      sent := [];
      offered := [];
      this.incoming := incoming;
      this.sendCaps := sendCaps;
      this.recvCaps := recvCaps;
    }

    /** `send(chunk)`: accepts a prefix of the chunk, at least one byte of a
        non-empty one, and says how long it was. */
    method Send(chunk: seq<byte>) returns (n: nat)
      requires Valid()
      modifies this
      ensures n == Cap(old(sendCaps), |chunk|) && (|chunk| > 0 ==> 1 <= n) && n <= |chunk|
      ensures sent == old(sent) + chunk[..n] && offered == old(offered) + [|chunk|]
      ensures sendCaps == Later(old(sendCaps)) && recvCaps == old(recvCaps)
      ensures incoming == old(incoming) && Valid()
    {
      n := Cap(sendCaps, |chunk|);
      sent := sent + chunk[..n];
      offered := offered + [|chunk|];
      sendCaps := Later(sendCaps);
    }

    /** `recv(n)`: up to n bytes, at least one when n is positive; a read with
        nothing left to arrive times out. */
    method Recv(n: nat) returns (r: Result<seq<byte>>)
      requires Valid()
      modifies this
      ensures old(incoming) == [] ==> r == Err(Timeout) && incoming == old(incoming) && recvCaps == old(recvCaps)
      ensures old(incoming) != [] ==>
        var k := Cap(old(recvCaps), Min(n, |old(incoming)|));
        r == Ok(old(incoming)[..k]) && incoming == old(incoming)[k..] && recvCaps == Later(old(recvCaps))
      ensures r.Ok? ==> |r.value| <= n && (n >= 1 ==> |r.value| >= 1)
      ensures sent == old(sent) && offered == old(offered) && sendCaps == old(sendCaps) && Valid()
    {
      if incoming == [] {
        return Err(Timeout);
      }
      var k := Cap(recvCaps, Min(n, |incoming|));
      r := Ok(incoming[..k]);
      incoming := incoming[k..];
      recvCaps := Later(recvCaps);
    }

    /** `recv_into(view, n)` where `view` starts at `offset` of `buf`: between
        one and n bytes written from that offset; the count is returned. */
    method RecvInto(buf: array<byte>, offset: nat, n: nat) returns (r: Result<nat>)
      requires Valid() && offset + n <= buf.Length && n >= 1
      modifies this, buf
      ensures old(incoming) == [] ==>
        r == Err(Timeout) && incoming == old(incoming) && recvCaps == old(recvCaps) && buf[..] == old(buf[..])
      ensures old(incoming) != [] ==>
        var k := Cap(old(recvCaps), Min(n, |old(incoming)|));
        r == Ok(k) && incoming == old(incoming)[k..] && recvCaps == Later(old(recvCaps)) &&
        buf[..] == old(buf[..offset]) + old(incoming)[..k] + old(buf[offset + k..])
      ensures r.Ok? ==> 1 <= r.value <= n
      ensures sent == old(sent) && offered == old(offered) && sendCaps == old(sendCaps) && Valid()
    {
      if incoming == [] {
        return Err(Timeout);
      }
      var k := Cap(recvCaps, Min(n, |incoming|));
      forall i | 0 <= i < k {
        buf[offset + i] := incoming[i];
      }
      assert buf[..] == old(buf[..offset]) + old(incoming)[..k] + old(buf[offset + k..]);
      incoming := incoming[k..];
      recvCaps := Later(recvCaps);
      return Ok(k);
    }
  }

  /** `TcpEndPoint.sendmsg`: builds the frame and offers it in chunks of at
      most 512 bytes, each starting where the accepted bytes end, until all of
      it was accepted. */
  method SendMsg(sock: Socket, msg: seq<byte>, msgId: int, msgType: int) returns (r: Result<()>)
    requires sock.Valid()
    modifies sock
    ensures r.Ok? <==> Frame(Message(msg, msgId, msgType)).Ok?
    ensures r.Err? ==> r.error == StructError && sock.sent == old(sock.sent) && sock.offered == old(sock.offered)
    ensures r.Ok? ==> sock.sent == old(sock.sent) + Frame(Message(msg, msgId, msgType)).value
    ensures forall i :: |old(sock.offered)| <= i < |sock.offered| ==> 1 <= sock.offered[i] <= ChunkSize
    ensures sock.incoming == old(sock.incoming)
  {
    var header := Header(msgId, msgType, |msg|);
    if header.Err? {
      return Err(StructError);
    }
    var completeMsg := header.value + msg;
    assert completeMsg == Frame(Message(msg, msgId, msgType)).value;
    var msgLength := |completeMsg|;
    var startAddr := 0;
    while msgLength > 0
      invariant 0 <= startAddr && 0 <= msgLength
      invariant startAddr + msgLength == |completeMsg|
      invariant sock.sent == old(sock.sent) + completeMsg[..startAddr]
      invariant |old(sock.offered)| <= |sock.offered|
      invariant forall i :: |old(sock.offered)| <= i < |sock.offered| ==> 1 <= sock.offered[i] <= ChunkSize
      invariant sock.incoming == old(sock.incoming) && sock.Valid()
      decreases msgLength
    {
      var lastElem := startAddr + ChunkSize;
      var chunk := completeMsg[startAddr..Min(lastElem, |completeMsg|)];
      var bytesSent := sock.Send(chunk);
      assert completeMsg[..startAddr + bytesSent] == completeMsg[..startAddr] + chunk[..bytesSent];
      startAddr := startAddr + bytesSent;
      msgLength := msgLength - bytesSent;
    }
    assert completeMsg[..startAddr] == completeMsg;
    return Ok(());
  }

  /** `TcpEndPoint.getmsg` with each `recv_into` writing where the previous
      one stopped: reads one header, then exactly the stated number of
      payload bytes, and returns the message at the front of the stream. */
  method GetMsg(sock: Socket) returns (r: Result<Message>)
    requires sock.Valid()
    modifies sock
    ensures old(sock.incoming) == [] ==> r == Err(Timeout)
    ensures old(sock.incoming) != [] && Cap(old(sock.recvCaps), Min(HeaderSize, |old(sock.incoming)|)) < HeaderSize ==>
              r == Err(StructError)
    ensures r.Ok? ==> FrameAt(old(sock.incoming)) == r &&
                      sock.incoming == old(sock.incoming)[HeaderSize + |r.value.payload|..]
    ensures Cap(old(sock.recvCaps), HeaderSize) == HeaderSize && FrameAt(old(sock.incoming)).Ok? ==>
              r == FrameAt(old(sock.incoming))
    ensures sock.sent == old(sock.sent)
  {
    var header :- sock.Recv(HeaderSize);
    var fields :- DecodeHeader(header);
    ghost var stream := old(sock.incoming);
    assert header == stream[..HeaderSize];
    var (msgId, msgType, msgLength) := fields;
    FrameAtHeader(stream, msgId, msgType, msgLength);
    var msg := new byte[msgLength](_ => 0);
    var got := ReadPayload(sock, msg);
    if got.Err? {
      return Err(got.error);
    }
    assert stream[HeaderSize..][..msgLength] == stream[HeaderSize..HeaderSize + msgLength];
    assert stream[HeaderSize..][msgLength..] == stream[HeaderSize + msgLength..];
    return Ok(Message(msg[..], msgId, msgType));
  }

  /** `getmsg` on a socket whose incoming bytes are the frames of a queue of
      messages: it times out on an empty queue, and otherwise it can only
      return the first message and leave the frames of the rest; it does
      return it when the header arrives in one piece. */
  method GetQueued(sock: Socket, ghost pending: seq<Message>) returns (r: Result<Message>)
    requires sock.Valid() && Stream(pending).Ok? && sock.incoming == Stream(pending).value
    modifies sock
    ensures pending == [] ==> r == Err(Timeout)
    ensures r.Ok? ==> pending != [] && r.value == pending[0] && sock.incoming == Stream(pending[1..]).value
    ensures pending != [] && Cap(old(sock.recvCaps), HeaderSize) == HeaderSize ==> r.Ok?
    ensures sock.sent == old(sock.sent)
  {
    if pending != [] {
      StreamFront(pending);
    }
    r := GetMsg(sock);
  }

  /** The message at the front of a stream whose header decodes to the given fields. */
  lemma FrameAtHeader(stream: seq<byte>, id: int, msgType: int, length: nat)
    requires |stream| >= HeaderSize && DecodeHeader(stream[..HeaderSize]) == Ok((id, msgType, length))
    ensures HeaderSize + length > |stream| ==> FrameAt(stream) == Err(Timeout)
    ensures HeaderSize + length <= |stream| ==>
      FrameAt(stream) == Ok(Message(stream[HeaderSize..HeaderSize + length], id, msgType))
  {
  }

  /** One `recv_into` at the end of what is already filled extends the filled prefix. */
  lemma FillStep(before: seq<byte>, after: seq<byte>, stream: seq<byte>, start: seq<byte>, done: nat, k: nat)
    requires done + k <= |before| && k <= |stream| && done <= |start| && stream == start[done..]
    requires before[..done] == start[..done]
    requires after == before[..done] + stream[..k] + before[done + k..]
    ensures after[..done + k] == start[..done + k]
  {
    assert after[..done + k] == before[..done] + stream[..k];
    assert start[..done + k] == start[..done] + start[done..][..k];
  }

  /** The payload loop of `getmsg` with each `recv_into` writing where the
      previous one stopped: the buffer ends up holding the next `msg.Length`
      bytes of the stream, or the read times out when fewer arrive. */
  method ReadPayload(sock: Socket, msg: array<byte>) returns (r: Result<()>)
    requires sock.Valid()
    modifies sock, msg
    ensures r.Ok? <==> |old(sock.incoming)| >= msg.Length
    ensures r.Ok? ==> msg[..] == old(sock.incoming)[..msg.Length] && sock.incoming == old(sock.incoming)[msg.Length..]
    ensures r.Err? ==> r.error == Timeout
    ensures sock.sent == old(sock.sent)
  {
    var msgLength := msg.Length;
    ghost var payloadStart := sock.incoming;
    var remaining := msgLength;
    while remaining > 0
      invariant 0 <= remaining <= msgLength
      invariant |payloadStart| >= msgLength - remaining
      invariant sock.incoming == payloadStart[msgLength - remaining..]
      invariant msg[..msgLength - remaining] == payloadStart[..msgLength - remaining]
      invariant sock.sent == old(sock.sent) && sock.Valid()
      decreases remaining
    {
      ghost var done, before, stream := msgLength - remaining, msg[..], sock.incoming;
      var got := sock.RecvInto(msg, msgLength - remaining, remaining);
      if got.Err? {
        return Err(got.error);
      }
      FillStep(before, msg[..], stream, payloadStart, done, got.value);
      remaining := remaining - got.value;
    }
    assert msg[..] == msg[..msgLength];
    return Ok(());
  }

  /** The buffer `getmsg` as written ends with when the calls follow the
      schedule `caps`: each `recv_into` writes its chunk from the start of the
      buffer, over what the previous one wrote. */
  function ZeroOffsetFill(buf: seq<byte>, data: seq<byte>, remaining: nat, caps: seq<nat>): (r: seq<byte>)
    requires Positive(caps) && remaining <= |buf| && remaining <= |data|
    ensures |r| == |buf|
    decreases remaining
  {
    if remaining == 0 then buf
    else
      var k := Cap(caps, remaining);
      ZeroOffsetFill(data[..k] + buf[k..], data[k..], remaining - k, Later(caps))
  }

  /** One `recv_into` at offset 0 of `k` bytes leaves the same final buffer to come. */
  lemma ZeroOffsetAdvance(before: seq<byte>, after: seq<byte>, stream: seq<byte>, remaining: nat, caps: seq<nat>, k: nat)
    requires Positive(caps) && 0 < remaining <= |before| && remaining <= |stream|
    requires k == Cap(caps, Min(remaining, |stream|))
    requires after == before[..0] + stream[..k] + before[0 + k..]
    ensures ZeroOffsetFill(after, stream[k..], remaining - k, Later(caps)) == ZeroOffsetFill(before, stream, remaining, caps)
  {
    assert k == Cap(caps, remaining);
    assert after == stream[..k] + before[k..];
  }

  /** The as-written reads still to come, `remaining` bytes from `data` on the
      schedule `caps`, leave `target` in the buffer. */
  ghost predicate Pending(buf: seq<byte>, data: seq<byte>, remaining: nat, caps: seq<nat>, target: seq<byte>)
  {
    Positive(caps) && remaining <= |buf| && remaining <= |data| && ZeroOffsetFill(buf, data, remaining, caps) == target
  }

  /** One `recv_into(msgview, msglength)` of the loop below, which keeps the
      buffer the remaining reads will leave. */
  method RecvAtZero(sock: Socket, msg: array<byte>, remaining: nat, ghost start: seq<byte>, ghost done: nat,
                    ghost enough: bool, ghost target: seq<byte>)
    returns (r: Result<nat>)
    requires sock.Valid() && 0 < remaining <= msg.Length
    requires done <= |start| && sock.incoming == start[done..]
    requires enough ==> Pending(msg[..], sock.incoming, remaining, sock.recvCaps, target)
    modifies sock, msg
    ensures sock.sent == old(sock.sent) && sock.Valid()
    ensures r.Err? ==> r.error == Timeout && old(sock.incoming) == []
    ensures r.Ok? ==> 1 <= r.value <= remaining && done + r.value <= |start| &&
                      sock.incoming == start[done + r.value..]
    ensures r.Ok? && enough ==> Pending(msg[..], sock.incoming, remaining - r.value, sock.recvCaps, target)
  {
    ghost var before, stream, caps := msg[..], sock.incoming, sock.recvCaps;
    r := sock.RecvInto(msg, 0, remaining);
    if r.Ok? {
      assert start[done..][r.value..] == start[done + r.value..];
      if enough {
        ZeroOffsetAdvance(before, msg[..], stream, remaining, caps, r.value);
      }
    }
  }

  /** The payload loop of `getmsg` as written: `recv_into(msgview, msglength)`
      until `msglength` reaches 0, always into the whole buffer. */
  method ReadAtZero(sock: Socket, msg: array<byte>) returns (r: Result<()>)
    requires sock.Valid()
    modifies sock, msg
    ensures r.Ok? ==> |old(sock.incoming)| >= msg.Length
    ensures r.Ok? ==> msg[..] == ZeroOffsetFill(old(msg[..]), old(sock.incoming), msg.Length, old(sock.recvCaps))
    ensures r.Ok? ==> sock.incoming == old(sock.incoming)[msg.Length..]
    ensures r.Err? ==> r.error == Timeout
    ensures sock.sent == old(sock.sent)
  {
    var msgLength := msg.Length;
    ghost var payloadStart := sock.incoming;
    ghost var enough := |payloadStart| >= msgLength;
    ghost var target := if enough then ZeroOffsetFill(msg[..], payloadStart, msgLength, sock.recvCaps) else [];
    var remaining := msgLength;
    while remaining > 0
      invariant 0 <= remaining <= msgLength
      invariant |payloadStart| >= msgLength - remaining
      invariant sock.incoming == payloadStart[msgLength - remaining..]
      invariant sock.Valid()
      invariant enough ==> Pending(msg[..], sock.incoming, remaining, sock.recvCaps, target)
      invariant sock.sent == old(sock.sent)
      decreases remaining
    {
      var got := RecvAtZero(sock, msg, remaining, payloadStart, msgLength - remaining, enough, target);
      if got.Err? {
        return Err(got.error);
      }
      remaining := remaining - got.value;
    }
    assert enough && ZeroOffsetFill(msg[..], sock.incoming, 0, sock.recvCaps) == msg[..];
    return Ok(());
  }

  /** `TcpEndPoint.getmsg` as written: every `recv_into` is given the whole
      buffer, so every chunk lands at offset 0. */
  method GetMsgAsWritten(sock: Socket) returns (r: Result<Message>)
    requires sock.Valid()
    modifies sock
    ensures old(sock.incoming) == [] ==> r == Err(Timeout)
    ensures r.Ok? ==>
      |old(sock.incoming)| >= HeaderSize + |r.value.payload| && Cap(old(sock.recvCaps), HeaderSize) == HeaderSize &&
      DecodeHeader(old(sock.incoming)[..HeaderSize]) == Ok((r.value.id, r.value.msgType, |r.value.payload|)) &&
      r.value.payload == ZeroOffsetFill(Zeros(|r.value.payload|), old(sock.incoming)[HeaderSize..],
                                        |r.value.payload|, Later(old(sock.recvCaps)))
    ensures sock.sent == old(sock.sent)
  {
    var header :- sock.Recv(HeaderSize);
    var fields :- DecodeHeader(header);
    assert header == old(sock.incoming)[..HeaderSize];
    var (msgId, msgType, msgLength) := fields;
    var msg := new byte[msgLength](_ => 0);
    assert msg[..] == Zeros(msgLength);
    var got :- ReadAtZero(sock, msg);
    return Ok(Message(msg[..], msgId, msgType));
  }

  /** A 17-byte payload whose first 16 bytes arrive in one piece comes back
      with its last byte written over its first and a zero at the end. */
  lemma ZeroOffsetFillCorrupts()
    ensures var data := seq(17, i => i + 1);
      ZeroOffsetFill(Zeros(17), data, 17, [16]) == [17] + data[1..16] + [0] &&
      ZeroOffsetFill(Zeros(17), data, 17, [16]) != data
  {
    var data: seq<byte> := seq(17, i => i + 1);
    var first := data[..16] + Zeros(17)[16..];
    assert Cap([16], 17) == 16 && Later([16]) == [];
    assert ZeroOffsetFill(Zeros(17), data, 17, [16]) == ZeroOffsetFill(first, data[16..], 1, []);
    assert ZeroOffsetFill(first, data[16..], 1, []) == ZeroOffsetFill(data[16..][..1] + first[1..], data[16..][1..], 0, []);
    assert ZeroOffsetFill(Zeros(17), data, 17, [16])[0] == 17 != data[0];
  }

  /** A payload that arrives in one piece is read correctly also as written. */
  lemma ZeroOffsetFillWhole(buf: seq<byte>, data: seq<byte>, remaining: nat, caps: seq<nat>)
    requires Positive(caps) && remaining <= |buf| && remaining <= |data| && Cap(caps, remaining) == remaining
    ensures ZeroOffsetFill(buf, data, remaining, caps) == data[..remaining] + buf[remaining..]
  {
    if remaining > 0 {
      assert ZeroOffsetFill(buf, data, remaining, caps) ==
             ZeroOffsetFill(data[..remaining] + buf[remaining..], data[remaining..], 0, Later(caps));
    }
  }
}
