/** The buffering and message layer of Entangleware/ew_link.py: the
    growable event buffer of 24-byte records, the record encodings, the switch
    between buffering a record and sending it at once, the build/clear/run
    messages, and the connection manager's shutdown. */
module Link {
  import opened Base
  import opened Bits
  import opened Wire
  import Framing

  type Message = Framing.Message

  // A record (`lengthpayload`) is 24 bytes, and the buffer grows in blocks
  // of `sizeofbytearray` = 2^20 records (`lengthsequence`) = 0x180_0000
  // bytes. Both are written as literals below so that the arithmetic on them
  // stays linear for the solver.

  /** Message types understood by the Entangleware software. */
  const TypeBuild: nat := 16
  const TypeClear: nat := 17
  const TypeRunRemote: nat := 18
  const TypeDigital: nat := 20
  const TypeAnalog: nat := 21
  const TypeRun: nat := 22

  /** The acknowledgment the software sends when a run is done: `(b'Done', 15, 15)`. */
  const DoneAck: Message := Framing.Message([68, 111, 110, 101], 15, 15)

  /** `struct.pack('>dLLLL', time, connector, mask, enable, state)`. */
  function DigitalRecord(f64: real -> Bytes8, time: real, connector: int, mask: int, enable: int, state: int): (r: Result<seq<byte>>)
    ensures r.Ok? <==> 0 <= connector < U32Limit && 0 <= mask < U32Limit && 0 <= enable < U32Limit && 0 <= state < U32Limit
    ensures r.Err? ==> r.error == StructError
    ensures r.Ok? ==> |r.value| == 24 && r.value[..8] == f64(time)
    ensures r.Ok? ==> FromBigEndian(r.value[8..12]) == connector && FromBigEndian(r.value[12..16]) == mask
    ensures r.Ok? ==> FromBigEndian(r.value[16..20]) == enable && FromBigEndian(r.value[20..24]) == state
  {
    var c :- PackU32(connector);
    var m :- PackU32(mask);
    var e :- PackU32(enable);
    var s :- PackU32(state);
    var rec := f64(time) + c + m + e + s;
    assert rec[8..12] == c && rec[12..16] == m && rec[16..20] == e && rec[20..24] == s;
    Ok(rec)
  }

  /** `struct.pack('>dLLLl', time, connector, mask, enable, state)`: the last field signed. */
  function AnalogRecord(f64: real -> Bytes8, time: real, connector: int, mask: int, enable: int, state: int): (r: Result<seq<byte>>)
    ensures r.Ok? <==> 0 <= connector < U32Limit && 0 <= mask < U32Limit && 0 <= enable < U32Limit &&
                       -0x8000_0000 <= state < 0x8000_0000
    ensures r.Err? ==> r.error == StructError
    ensures r.Ok? ==> |r.value| == 24 && r.value[..8] == f64(time)
    ensures r.Ok? ==> FromBigEndian(r.value[8..12]) == connector && FromBigEndian(r.value[12..16]) == mask
    ensures r.Ok? ==> FromBigEndian(r.value[16..20]) == enable && UnpackI32(r.value[20..24]) == state
  {
    var c :- PackU32(connector);
    var m :- PackU32(mask);
    var e :- PackU32(enable);
    var s :- PackI32(state);
    var rec := f64(time) + c + m + e + s;
    assert rec[8..12] == c && rec[12..16] == m && rec[16..20] == e && rec[20..24] == s;
    Ok(rec)
  }

  /** `struct.pack('>dBBd', time, board, channel, value)`: the immediate analog message. */
  function ImmediateAnalog(f64: real -> Bytes8, time: real, board: int, channel: int, value: real): (r: Result<seq<byte>>)
    ensures r.Ok? <==> 0 <= board < 0x100 && 0 <= channel < 0x100
    ensures r.Err? ==> r.error == StructError
    ensures r.Ok? ==> |r.value| == 18 && r.value[..8] == f64(time) && r.value[8] == board &&
                      r.value[9] == channel && r.value[10..] == f64(value)
  {
    var b :- PackU8(board);
    var c :- PackU8(channel);
    Ok(f64(time) + b + c + f64(value))
  }

  /** The record connector of a digital write: 0..3 become 1..4, anything else 0. */
  function LinkConnector(connector: int): (r: int)
    ensures 0 <= r <= 4
    ensures r == 0 <==> !(0 <= connector <= 3)
    ensures 0 <= connector <= 3 ==> r == connector + 1
  {
    if connector < 0 || connector > 3 then 0 else connector + 1
  }

  /** The signed 16-bit code of an analog voltage: `int((value / 20) * 2**16)`
      saturated to [-2^15, 2^15 - 1]. */
  function AnalogCode(value: real): (r: int)
    ensures -0x8000 <= r <= 0x7FFF
    ensures -0x8000 <= Trunc((value / 20.0) * 65536.0) <= 0x7FFF ==> r == Trunc((value / 20.0) * 65536.0)
  {
    var code := Trunc((value / 20.0) * 65536.0);
    var code := if code > 0x8000 - 1 then 0x8000 - 1 else code;
    if code < -0x8000 then -0x8000 else code
  }

  /** The quantiser never reverses the order of two voltages, and it
      saturates: every voltage of 10 V or more gives the top code. */
  lemma AnalogCodeMonotone(v: real, w: real)
    requires v <= w
    ensures AnalogCode(v) <= AnalogCode(w)
    ensures v >= 10.0 ==> AnalogCode(v) == 0x7FFF
    ensures v <= -10.0 ==> AnalogCode(v) == -0x8000
  {
    TruncMonotone((v / 20.0) * 65536.0, (w / 20.0) * 65536.0);
  }

  /** The channel mask of an analog channel: bit `board * 8 + channel`. */
  function AnalogMask(board: int, channel: int): (r: nat)
    requires 0 <= board <= 1 && 0 <= channel <= 7
    ensures 1 <= r < 0x1_0000
    ensures forall k: nat :: Bit(r, k) == (if k == board * 8 + channel then 1 else 0)
  {
    var i := board * 8 + channel;
    Pow2Monotone(i, 16);
    Pow2Sixteen();
    forall k: nat ensures Bit(Pow2(i), k) == (if k == i then 1 else 0) {
      BitOfPow2(i, k);
    }
    Pow2(i)
  }

  lemma Pow2Sixteen()
    ensures Pow2(16) == 0x1_0000
  {
    assert Pow2(2) == 4;
    Pow2Add(2, 2);
    Pow2Add(4, 4);
    Pow2Add(8, 8);
  }

  /** The packed records of the analog list mode, one `>dLLLl` record per pair. */
  function AnalogBlock(f64: real -> Bytes8, times: seq<real>, mask: nat, codes: seq<int>): (r: seq<byte>)
    requires |times| == |codes| && mask < U32Limit
    requires forall i :: 0 <= i < |codes| ==> -0x8000 <= codes[i] <= 0x7FFF
    ensures |r| == 24 * |times|
    decreases |times|
  {
    if times == [] then []
    else
      var n := |times| - 1;
      AnalogBlock(f64, times[..n], mask, codes[..n]) + AnalogRecord(f64, times[n], 5, mask, 0, codes[n]).value
  }

  lemma WholeRecords(n: nat)
    ensures (24 * n) % 24 == 0
  {
  }

  /** Record i of the block is the record of the i-th time and code. */
  lemma AnalogBlockRecords(f64: real -> Bytes8, times: seq<real>, mask: nat, codes: seq<int>)
    requires |times| == |codes| && mask < U32Limit
    requires forall i :: 0 <= i < |codes| ==> -0x8000 <= codes[i] <= 0x7FFF
    ensures forall i :: 0 <= i < |times| ==>
      AnalogBlock(f64, times, mask, codes)[24 * i..24 * (i + 1)]
        == AnalogRecord(f64, times[i], 5, mask, 0, codes[i]).value
  {
    forall i | 0 <= i < |times|
      ensures AnalogBlock(f64, times, mask, codes)[24 * i..24 * (i + 1)]
           == AnalogRecord(f64, times[i], 5, mask, 0, codes[i]).value
    {
      AnalogBlockRecordAt(f64, times, mask, codes, i);
    }
  }

  lemma {:induction false} AnalogBlockRecordAt(f64: real -> Bytes8, times: seq<real>, mask: nat, codes: seq<int>, i: nat)
    requires |times| == |codes| && mask < U32Limit && i < |times|
    requires forall i :: 0 <= i < |codes| ==> -0x8000 <= codes[i] <= 0x7FFF
    ensures AnalogBlock(f64, times, mask, codes)[24 * i..24 * (i + 1)]
         == AnalogRecord(f64, times[i], 5, mask, 0, codes[i]).value
    decreases |times|
  {
    var n := |times| - 1;
    var init := AnalogBlock(f64, times[..n], mask, codes[..n]);
    var last := AnalogRecord(f64, times[n], 5, mask, 0, codes[n]).value;
    assert AnalogBlock(f64, times, mask, codes) == init + last;
    if i == n {
      LastRecord(init, last, n);
    } else {
      AnalogBlockRecordAt(f64, times[..n], mask, codes[..n], i);
      SliceOfAppend(init, last, 24 * i, 24 * (i + 1));
      assert times[..n][i] == times[i] && codes[..n][i] == codes[i];
    }
  }

  lemma LastRecord(init: seq<byte>, last: seq<byte>, n: nat)
    requires |init| == 24 * n && |last| == 24
    ensures (init + last)[24 * n..24 * (n + 1)] == last
  {
  }

  lemma SliceOfAppend(a: seq<byte>, b: seq<byte>, lo: nat, hi: nat)
    requires lo <= hi <= |a|
    ensures (a + b)[lo..hi] == a[lo..hi]
  {
  }

  /** The 4-byte prefix of a run message: `struct.pack('>l', 1)`, one cycle. */
  const CyclePrefix: seq<byte> := [0, 0, 0, 1]

  lemma CyclePrefixIsOne()
    ensures PackI32(1) == Ok(CyclePrefix)
  {
    assert BigEndian(1, 4) == [0, 0, 0, 1];
  }

  /** The bytes of `buf` with `e` written over them at `start`. */
  function Written(buf: seq<byte>, start: nat, e: seq<byte>): (r: seq<byte>)
    requires start + |e| <= |buf|
    ensures |r| == |buf| && r[start..start + |e|] == e
    ensures r[..start] == buf[..start] && r[start + |e|..] == buf[start + |e|..]
  {
    buf[..start] + e + buf[start + |e|..]
  }

  lemma PrefixSplit(s: seq<byte>, a: nat, b: nat)
    requires a <= b <= |s|
    ensures s[..b] == s[..a] + s[a..b]
  {
  }

  /** The growth `addElement` adds to a buffer of `length` bytes already
      filled up to `start` so that `n` more bytes fit: whole blocks, enough
      blocks for the element. */
  function Growth(length: nat, start: nat, n: nat): (r: nat)
    requires start <= length
    ensures r % 0x180_0000 == 0
    ensures start + n <= length + r
    ensures n <= length - start ==> r == 0
  {
    if n > length - start then
      var c := Ceil(n as real / 0x180_0000 as real);
      var x := n as real / 0x180_0000 as real;
      assert x > 0.0 && x * 0x180_0000 as real == n as real;
      assert c as real >= x;
      assert c >= 1;
      assert c as real * 0x180_0000 as real >= x * 0x180_0000 as real;
      0x180_0000 * c
    else 0
  }

  /** The buffer `buf`, logically `end` records long, after `addElement(e)`
      has grown it as needed and written `e` at its logical end. */
  function Added(buf: seq<byte>, end: nat, e: seq<byte>): (r: seq<byte>)
    requires end * 24 <= |buf|
  {
    Written(buf + Zeros(Growth(|buf|, end * 24, |e|)), end * 24, e)
  }

  /** What `Added` keeps: whole blocks, room for the new end, and the old
      records followed by the element. */
  lemma AddedFacts(buf: seq<byte>, end: nat, e: seq<byte>)
    requires end * 24 <= |buf| && |buf| >= 0x180_0000 && |buf| % 0x180_0000 == 0
    requires |e| % 24 == 0
    ensures |Added(buf, end, e)| >= 0x180_0000 && |Added(buf, end, e)| % 0x180_0000 == 0
    ensures (end + |e| / 24) * 24 <= |Added(buf, end, e)|
    ensures Added(buf, end, e)[..(end + |e| / 24) * 24] == buf[..end * 24] + e
  {
    var g := Growth(|buf|, end * 24, |e|);
    var grown := buf + Zeros(g);
    var a := Added(buf, end, e);
    assert |grown| == |buf| + g;
    BlocksAdd(|buf|, g);
    assert (end + |e| / 24) * 24 == end * 24 + |e|;
    PrefixSplit(a, end * 24, end * 24 + |e|);
    assert a[..end * 24] == grown[..end * 24] == buf[..end * 24];
  }

  lemma BlocksAdd(a: nat, b: nat)
    requires a % 0x180_0000 == 0 && b % 0x180_0000 == 0
    ensures (a + b) % 0x180_0000 == 0
  {
  }

  // ---------------------------------------------------------------------
  // The event buffer

  /** `ew_link.Sequence` (the module's `msgseq`): the byte buffer, its
      logical end `seqendindex` counted in records, whether that count is at
      the moment a Python float, and the mode and chain flags. */
  class MsgSequence {
    var building: bool
    var local: bool
    var endIndex: nat
    var endIsFloat: bool
    var data: array<byte>
    var chainFirstCall: bool
    var chainLastRuntime: real

    predicate Valid()
      reads this
    {
      endIndex * 24 <= data.Length && data.Length >= 0x180_0000 && data.Length % 0x180_0000 == 0
    }

    /** The records buffered so far. */
    function Contents(): (r: seq<byte>)
      reads this, data
      requires Valid()
      ensures |r| == endIndex * 24
    {
      data[..endIndex * 24]
    }

    constructor ()
      ensures Valid() && !building && local && endIndex == 0 && !endIsFloat
      ensures data[..] == Zeros(0x180_0000) && chainFirstCall && chainLastRuntime == 0.0
    {
      building := false;
      local := true;
      endIndex := 0;
      endIsFloat := false;
      data := new byte[0x180_0000](_ => 0);
      chainFirstCall := true;
      chainLastRuntime := 0.0;
    }

    /** `addElement(element)`: refuses an element that is not whole records;
        otherwise grows the buffer by whole blocks when the element does not
        fit, writes it at the logical end and moves the end past it. */
    method AddElement(e: seq<byte>) returns (r: Result<()>)
      requires Valid()
      modifies this, data
      ensures Valid()
      ensures |e| % 24 != 0 ==>
        r == Err(ValueError) && data == old(data) && data[..] == old(data[..]) &&
        endIndex == old(endIndex) && endIsFloat == old(endIsFloat)
      ensures |e| % 24 == 0 ==>
        r == Ok(()) && endIndex == old(endIndex) + |e| / 24 && endIsFloat &&
        data[..] == Added(old(data[..]), old(endIndex), e)
      ensures |e| % 24 == 0 ==> Contents() == old(Contents()) + e
      ensures data != old(data) ==> fresh(data)
      ensures building == old(building) && local == old(local)
      ensures chainFirstCall == old(chainFirstCall) && chainLastRuntime == old(chainLastRuntime)
    {
      var lengthElement := |e|;
      if lengthElement % 24 != 0 {
        return Err(ValueError);
      }
      ghost var buf, end := data[..], endIndex;
      var lengthBuffer := data.Length;
      var startIndex := endIndex * 24;
      var lengthEmptySeq := lengthBuffer - startIndex;
      if lengthElement > lengthEmptySeq {
        Grow(Growth(lengthBuffer, startIndex, lengthElement));
      }
      WriteAt(startIndex, e);
      endIndex := endIndex + lengthElement / 24;
      endIsFloat := true;
      AddedFacts(buf, end, e);
      r := Ok(());
    }

    /** `self.seq + bytearray(extra)`: a longer copy of the buffer, zero-filled at the end. */
    method Grow(extra: nat)
      modifies this
      ensures fresh(data) && data[..] == old(data[..]) + Zeros(extra)
      ensures building == old(building) && local == old(local) && endIndex == old(endIndex)
      ensures endIsFloat == old(endIsFloat)
      ensures chainFirstCall == old(chainFirstCall) && chainLastRuntime == old(chainLastRuntime)
    {
      var bigger := new byte[data.Length + extra](_ => 0);
      forall i | 0 <= i < data.Length {
        bigger[i] := data[i];
      }
      data := bigger;
    }

    /** `self.seqview[start:start + len(e)] = e`. */
    method WriteAt(start: nat, e: seq<byte>)
      requires start + |e| <= data.Length
      modifies data
      ensures data[..] == Written(old(data[..]), start, e)
    {
      forall i | 0 <= i < |e| {
        data[start + i] := e[i];
      }
    }

    /** `clear()`: leaves build mode and replaces the buffer by one empty block. */
    method Clear()
      modifies this
      ensures Valid() && !building && endIndex == 0 && !endIsFloat
      ensures fresh(data) && data[..] == Zeros(0x180_0000)
      ensures local == old(local) && chainFirstCall == old(chainFirstCall) && chainLastRuntime == old(chainLastRuntime)
    {
      building := false;
      data := new byte[0x180_0000](_ => 0);
      endIndex := 0;
      endIsFloat := false;
    }
  }

  // ---------------------------------------------------------------------
  // The connection manager

  /** A handle that `close` shuts. */
  datatype Handle = EndpointHandle | ServerHandle | UdpHandle

  /** `ConnectionManager` (the module's `connmgr`): which handles are open,
      the messages sent through the endpoint, the messages still to be
      received from it, and the handles closed so far. */
  class ConnectionManager {
    var isConnected: bool
    var hasEndpoint: bool
    var hasServer: bool
    var hasUdp: bool
    var localUdp: bool
    var outbox: seq<Message>
    var inbox: seq<Message>
    var closed: seq<Handle>

    constructor (inbox: seq<Message>)
      ensures !isConnected && !hasEndpoint && !hasServer && !hasUdp && localUdp
      ensures outbox == [] && this.inbox == inbox && closed == []
    {
      isConnected := false;
      hasEndpoint := false;
      hasServer := false;
      hasUdp := false;
      localUdp := true;
      outbox := [];
      this.inbox := inbox;
      closed := [];
    }

    /** `tcp_endpoint.sendmsg(msg, id, type)`: AttributeError without an endpoint. */
    method Send(msg: seq<byte>, id: int, msgType: int) returns (r: Result<()>)
      modifies this
      ensures !old(hasEndpoint) ==> r == Err(AttributeError) && outbox == old(outbox)
      ensures old(hasEndpoint) && Framing.Frame(Framing.Message(msg, id, msgType)).Err? ==>
        r == Err(StructError) && outbox == old(outbox)
      ensures old(hasEndpoint) && Framing.Frame(Framing.Message(msg, id, msgType)).Ok? ==>
        r == Ok(()) && outbox == old(outbox) + [Framing.Message(msg, id, msgType)]
      ensures inbox == old(inbox) && closed == old(closed) && hasEndpoint == old(hasEndpoint)
      ensures isConnected == old(isConnected) && hasServer == old(hasServer) && hasUdp == old(hasUdp)
      ensures localUdp == old(localUdp)
    {
      if !hasEndpoint {
        return Err(AttributeError);
      }
      if Framing.Frame(Framing.Message(msg, id, msgType)).Err? {
        return Err(StructError);
      }
      outbox := outbox + [Framing.Message(msg, id, msgType)];
      return Ok(());
    }

    /** `tcp_endpoint.getmsg()`: the next message, or a timeout when none comes. */
    method Receive() returns (r: Result<Message>)
      modifies this
      ensures !old(hasEndpoint) ==> r == Err(AttributeError) && inbox == old(inbox)
      ensures old(hasEndpoint) && old(inbox) == [] ==> r == Err(Timeout) && inbox == old(inbox)
      ensures old(hasEndpoint) && old(inbox) != [] ==> r == Ok(old(inbox)[0]) && inbox == old(inbox)[1..]
      ensures outbox == old(outbox) && closed == old(closed) && hasEndpoint == old(hasEndpoint)
      ensures isConnected == old(isConnected) && hasServer == old(hasServer) && hasUdp == old(hasUdp)
      ensures localUdp == old(localUdp)
    {
      if !hasEndpoint {
        return Err(AttributeError);
      }
      if inbox == [] {
        return Err(Timeout);
      }
      r := Ok(inbox[0]);
      inbox := inbox[1..];
    }

    /** `close()`: marks the link down, closes each open handle (endpoint,
        then server, then UDP socket) and forgets all three. */
    method Close()
      modifies this
      ensures !isConnected && !hasEndpoint && !hasServer && !hasUdp
      ensures closed == old(closed) + (if old(hasEndpoint) then [EndpointHandle] else [])
                                    + (if old(hasServer) then [ServerHandle] else [])
                                    + (if old(hasUdp) then [UdpHandle] else [])
      ensures outbox == old(outbox) && inbox == old(inbox) && localUdp == old(localUdp)
    {
      isConnected := false;
      if hasEndpoint {
        closed := closed + [EndpointHandle];
      }
      if hasServer {
        closed := closed + [ServerHandle];
      }
      if hasUdp {
        closed := closed + [UdpHandle];
      }
      hasServer := false;
      hasUdp := false;
      hasEndpoint := false;
    }
  }

  /** `disconnect()`: closes only a connected manager. */
  method Disconnect(cm: ConnectionManager)
    modifies cm
    ensures old(cm.isConnected) ==> !cm.isConnected && !cm.hasEndpoint && !cm.hasServer && !cm.hasUdp
    ensures old(cm.isConnected) ==>
      cm.closed == old(cm.closed) + (if old(cm.hasEndpoint) then [EndpointHandle] else [])
                                  + (if old(cm.hasServer) then [ServerHandle] else [])
                                  + (if old(cm.hasUdp) then [UdpHandle] else [])
    ensures !old(cm.isConnected) ==>
      cm.closed == old(cm.closed) && cm.hasEndpoint == old(cm.hasEndpoint) &&
      cm.hasServer == old(cm.hasServer) && cm.hasUdp == old(cm.hasUdp) && !cm.isConnected
    ensures cm.outbox == old(cm.outbox) && cm.inbox == old(cm.inbox) && cm.localUdp == old(cm.localUdp)
  {
    if cm.isConnected {
      cm.Close();
    }
  }

  // ---------------------------------------------------------------------
  // Module-level operations on `msgseq` and `connmgr`

  /** `build_sequence()`: enters build mode locally, or asks the remote side with a type 16 message. */
  method BuildSequence(m: MsgSequence, cm: ConnectionManager) returns (r: Result<()>)
    requires m.Valid()
    modifies m, cm
    ensures m.Valid() && m.Contents() == old(m.Contents()) && m.local == old(m.local)
    ensures old(m.local) ==> r == Ok(()) && m.building && cm.outbox == old(cm.outbox)
    ensures !old(m.local) ==> (m.building == old(m.building) &&
      (if old(cm.hasEndpoint) then r == Ok(()) && cm.outbox == old(cm.outbox) + [Framing.Message([], 0, TypeBuild)]
       else r == Err(AttributeError) && cm.outbox == old(cm.outbox)))
  {
    if m.local {
      m.building := true;
      return Ok(());
    }
    r := cm.Send([], 0, TypeBuild);
  }

  /** `clear_sequence()`: clears the local buffer, or sends a type 17 message. */
  method ClearSequence(m: MsgSequence, cm: ConnectionManager) returns (r: Result<()>)
    requires m.Valid()
    modifies m, cm
    ensures m.Valid() && m.local == old(m.local)
    ensures old(m.local) ==> r == Ok(()) && !m.building && m.Contents() == [] && m.data[..] == Zeros(0x180_0000) &&
                             cm.outbox == old(cm.outbox)
    ensures !old(m.local) ==> (m.Contents() == old(m.Contents()) && m.building == old(m.building) &&
      (if old(cm.hasEndpoint) then r == Ok(()) && cm.outbox == old(cm.outbox) + [Framing.Message([], 0, TypeClear)]
       else r == Err(AttributeError) && cm.outbox == old(cm.outbox)))
  {
    if m.local {
      m.Clear();
      return Ok(());
    }
    r := cm.Send([], 0, TypeClear);
  }

  /** `set_digital_state(...)`: in build mode on the local side, one
      `>dLLLL` record with the connector mapped is appended to the buffer;
      otherwise the record, with the connector as given, is sent as a type
      20 message. Fields outside 32 bits are `struct.error`. */
  method SetDigitalState(m: MsgSequence, cm: ConnectionManager, f64: real -> Bytes8,
                         seqTime: real, connector: int, channelMask: int, outputEnable: int, outputState: int)
    returns (r: Result<()>)
    requires m.Valid()
    modifies m, m.data, cm
    ensures m.Valid() && m.building == old(m.building) && m.local == old(m.local)
    ensures old(m.building && m.local) ==> (cm.outbox == old(cm.outbox) &&
      var rec := DigitalRecord(f64, seqTime, LinkConnector(connector), channelMask, outputEnable, outputState);
      if rec.Ok? then r == Ok(()) && m.Contents() == old(m.Contents()) + rec.value && m.endIndex == old(m.endIndex) + 1
      else r == Err(StructError) && m.Contents() == old(m.Contents()))
    ensures !old(m.building && m.local) ==> (m.Contents() == old(m.Contents()) &&
      var rec := DigitalRecord(f64, seqTime, connector, channelMask, outputEnable, outputState);
      if rec.Err? then r == Err(StructError) && cm.outbox == old(cm.outbox)
      else if !old(cm.hasEndpoint) then r == Err(AttributeError) && cm.outbox == old(cm.outbox)
      else r == Ok(()) && cm.outbox == old(cm.outbox) + [Framing.Message(rec.value, 0, TypeDigital)])
  {
    if m.building && m.local {
      var c := if connector < 0 || connector > 3 then 0 else connector + 1;
      var toSend :- DigitalRecord(f64, seqTime, c, channelMask, outputEnable, outputState);
      r := m.AddElement(toSend);
    } else {
      var toSend :- DigitalRecord(f64, seqTime, connector, channelMask, outputEnable, outputState);
      FrameFits(toSend, TypeDigital);
      r := cm.Send(toSend, 0, TypeDigital);
    }
  }

  /** A record of 24 or 18 bytes always fits in a frame. */
  lemma FrameFits(payload: seq<byte>, msgType: nat)
    requires |payload| <= 24 && msgType < 0x100
    ensures Framing.Frame(Framing.Message(payload, 0, msgType)).Ok?
  {
  }

  /** A time or value argument of `set_analog_state`: a number or a list of numbers. */
  datatype Operand = Num(x: real) | List(xs: seq<real>)

  /** The analog records the list mode appends for the pairs of `times` and `values`. */
  function ListRecords(f64: real -> Bytes8, board: int, channel: int, times: seq<real>, values: seq<real>): (r: seq<byte>)
    requires 0 <= board <= 1 && 0 <= channel <= 7
    ensures |r| == 24 * Min(|times|, |values|)
  {
    var n := Min(|times|, |values|);
    AnalogBlock(f64, times[..n], AnalogMask(board, channel), seq(n, i requires 0 <= i < n => AnalogCode(values[i])))
  }

  /** The codes of the list mode: each value quantised and saturated, in order. */
  method AnalogCodes(values: seq<real>) returns (outputState: array<int>)
    ensures fresh(outputState)
    ensures outputState[..] == seq(|values|, i requires 0 <= i < |values| => AnalogCode(values[i]))
  {
    outputState := new int[|values|](_ => 0);
    var indx := 0;
    while indx < |values|
      modifies outputState
      invariant 0 <= indx <= |values|
      invariant forall k :: 0 <= k < indx ==> outputState[k] == AnalogCode(values[k])
    {
      outputState[indx] := Trunc((values[indx] / 20.0) * 65536.0);
      if outputState[indx] > 0x8000 - 1 {
        outputState[indx] := 0x8000 - 1;
      }
      if outputState[indx] < -0x8000 {
        outputState[indx] := -0x8000;
      }
      indx := indx + 1;
    }
  }

  /** The scalar branch of `set_analog_state` in local build mode. */
  method AppendAnalog(m: MsgSequence, f64: real -> Bytes8, t: real, board: int, channel: int, v: real)
    returns (r: Result<()>)
    requires m.Valid()
    modifies m, m.data
    ensures m.Valid() && r == Ok(()) && m.building == old(m.building) && m.local == old(m.local)
    ensures 0 <= board <= 1 && 0 <= channel <= 7 ==>
      m.Contents() == old(m.Contents()) + AnalogRecord(f64, t, 5, AnalogMask(board, channel), 0, AnalogCode(v)).value
    ensures !(0 <= board <= 1 && 0 <= channel <= 7) ==> m.Contents() == old(m.Contents())
  {
    var boardInRange := board == 0 || board == 1;
    var channelInRange := 0 <= channel <= 7;
    var outputEnable := 0;
    var outputState := Trunc((v / 20.0) * 65536.0);
    if outputState > 0x8000 - 1 {
      outputState := 0x8000 - 1;
    }
    if outputState < -0x8000 {
      outputState := -0x8000;
    }
    if boardInRange && channelInRange {
      var shiftAmount := board * 8 + channel;
      var connector := 5;
      var channelMask := AnalogMask(board, channel);
      var toSend := AnalogRecord(f64, t, connector, channelMask, outputEnable, outputState).value;
      r := m.AddElement(toSend);
    } else {
      r := Ok(());
    }
  }

  /** The list branch of `set_analog_state` in local build mode. */
  method AppendAnalogList(m: MsgSequence, f64: real -> Bytes8, ts: seq<real>, board: int, channel: int, vs: seq<real>)
    returns (r: Result<()>)
    requires m.Valid()
    modifies m, m.data
    ensures m.Valid() && r == Ok(()) && m.building == old(m.building) && m.local == old(m.local)
    ensures 0 <= board <= 1 && 0 <= channel <= 7 ==>
      m.Contents() == old(m.Contents()) + ListRecords(f64, board, channel, ts, vs)
    ensures !(0 <= board <= 1 && 0 <= channel <= 7) ==> m.Contents() == old(m.Contents())
  {
    var boardInRange := board == 0 || board == 1;
    var channelInRange := 0 <= channel <= 7;
    if boardInRange && channelInRange {
      var channelMask := AnalogMask(board, channel);
      var lengthPayload := Min(|ts|, |vs|);
      var outputState := AnalogCodes(vs[..lengthPayload]);
      assert outputState[..] == seq(lengthPayload, i requires 0 <= i < lengthPayload => AnalogCode(vs[i]));
      var toSend := AnalogBlock(f64, ts[..lengthPayload], channelMask, outputState[..]);
      WholeRecords(lengthPayload);
      r := m.AddElement(toSend);
    } else {
      r := Ok(());
    }
  }

  /** `set_analog_state(...)`. With two numbers: in build mode on the local
      side one `>dLLLl` record on connector 5 with mask bit `board*8+channel`,
      enable 0 and the saturated code is appended, or nothing when the board
      or channel is out of range; otherwise a `>dBBd` message of type 21 is
      sent. With two lists: in build mode on the local side the shorter
      length of pairs is appended as records, or nothing when out of range;
      otherwise ValueError. Any other combination is ValueError. */
  method SetAnalogState(m: MsgSequence, cm: ConnectionManager, f64: real -> Bytes8,
                        seqTime: Operand, board: int, channel: int, value: Operand)
    returns (r: Result<()>)
    requires m.Valid()
    modifies m, m.data, cm
    ensures m.Valid() && m.building == old(m.building) && m.local == old(m.local)
    ensures seqTime.Num? != value.Num? ==> r == Err(ValueError) && m.Contents() == old(m.Contents()) && cm.outbox == old(cm.outbox)
    ensures seqTime.Num? && value.Num? && old(m.building && m.local) ==> (r == Ok(()) && cm.outbox == old(cm.outbox) &&
      if 0 <= board <= 1 && 0 <= channel <= 7 then
        m.Contents() == old(m.Contents()) +
          AnalogRecord(f64, seqTime.x, 5, AnalogMask(board, channel), 0, AnalogCode(value.x)).value
      else m.Contents() == old(m.Contents()))
    ensures seqTime.Num? && value.Num? && !old(m.building && m.local) ==> (m.Contents() == old(m.Contents()) &&
      var rec := ImmediateAnalog(f64, seqTime.x, board, channel, value.x);
      if rec.Err? then r == Err(StructError) && cm.outbox == old(cm.outbox)
      else if !old(cm.hasEndpoint) then r == Err(AttributeError) && cm.outbox == old(cm.outbox)
      else r == Ok(()) && cm.outbox == old(cm.outbox) + [Framing.Message(rec.value, 0, TypeAnalog)])
    ensures seqTime.List? && value.List? && old(m.building && m.local) ==> (r == Ok(()) && cm.outbox == old(cm.outbox) &&
      if 0 <= board <= 1 && 0 <= channel <= 7 then
        m.Contents() == old(m.Contents()) + ListRecords(f64, board, channel, seqTime.xs, value.xs)
      else m.Contents() == old(m.Contents()))
    ensures seqTime.List? && value.List? && !old(m.building && m.local) ==>
      r == Err(ValueError) && m.Contents() == old(m.Contents()) && cm.outbox == old(cm.outbox)
  {
    match (seqTime, value) {
      case (Num(t), Num(v)) =>
        if m.building && m.local {
          r := AppendAnalog(m, f64, t, board, channel, v);
        } else {
          var toSend :- ImmediateAnalog(f64, t, board, channel, v);
          FrameFits(toSend, TypeAnalog);
          r := cm.Send(toSend, 0, TypeAnalog);
        }
      case (List(ts), List(vs)) =>
        if m.building && m.local {
          r := AppendAnalogList(m, f64, ts, board, channel, vs);
        } else {
          r := Err(ValueError);
        }
      case _ =>
        r := Err(ValueError);
    }
  }

  /** The message a local run sends: one cycle, then the buffered records. */
  function RunMessage(contents: seq<byte>): (r: seq<byte>)
    ensures |r| == 4 + |contents| && r[4..] == contents
    ensures UnpackI32(r[..4]) == 1
  {
    var r := CyclePrefix + contents;
    CyclePrefixIsOne();
    assert r[..4] == CyclePrefix;
    r
  }

  /** The message a run sends: locally the run message as type 22, remotely
      the cycle count alone as type 18. */
  function RunRequest(local: bool, contents: seq<byte>): Message
  {
    if local then Framing.Message(RunMessage(contents), 0, TypeRun) else Framing.Message(CyclePrefix, 0, TypeRunRemote)
  }

  /** A run goes out when there is an endpoint and its message can be framed. */
  predicate RunSendable(hasEndpoint: bool, local: bool, contents: seq<byte>)
  {
    hasEndpoint && Framing.Frame(RunRequest(local, contents)).Ok?
  }

  /** The exception of a run that cannot be sent. */
  function SendError(hasEndpoint: bool): Error
  {
    if hasEndpoint then StructError else AttributeError
  }

  /** The sending half of `run_sequence` and `run_sequence_chain`: locally
      the run message goes out as type 22 and the buffer is cleared; remotely
      the cycle count goes out as type 18. */
  method SendRun(m: MsgSequence, cm: ConnectionManager) returns (r: Result<()>)
    requires m.Valid()
    modifies m, cm
    ensures m.Valid() && m.local == old(m.local) && m.endIsFloat == (old(m.endIsFloat) && !(r.Ok? && old(m.local)))
    ensures m.chainFirstCall == old(m.chainFirstCall) && m.chainLastRuntime == old(m.chainLastRuntime)
    ensures cm.inbox == old(cm.inbox) && cm.hasEndpoint == old(cm.hasEndpoint)
    ensures r.Ok? <==> RunSendable(old(cm.hasEndpoint), old(m.local), old(m.Contents()))
    ensures old(cm.hasEndpoint) && !old(m.local) ==> r == Ok(())
    ensures r.Err? ==> r == Err(SendError(old(cm.hasEndpoint))) && cm.outbox == old(cm.outbox) && m.Contents() == old(m.Contents())
    ensures r.Ok? ==>
      cm.outbox == old(cm.outbox) + [RunRequest(old(m.local), old(m.Contents()))] &&
      (if old(m.local) then m.Contents() == [] && !m.building else m.Contents() == old(m.Contents()))
  {
    var toSend := CyclePrefix;
    if m.local {
      var tcpMessage := RunMessage(m.Contents());
      var sent :- cm.Send(tcpMessage, 0, TypeRun);
      m.Clear();
      r := Ok(());
    } else {
      FrameFits(toSend, TypeRunRemote);
      r := cm.Send(toSend, 0, TypeRunRemote);
    }
  }

  /** `run_sequence()`: makes `seqendindex` an int, sends the run, then waits
      for the runtime reply (8 bytes, `>d`) and returns the done message that
      follows. The run is sent, and locally the buffer cleared, before either
      reply is awaited, so a reply that times out leaves the run sent. */
  method RunSequence(m: MsgSequence, cm: ConnectionManager) returns (r: Result<Message>)
    requires m.Valid()
    modifies m, cm
    ensures m.Valid() && m.local == old(m.local)
    ensures !RunSendable(old(cm.hasEndpoint), old(m.local), old(m.Contents())) ==>
      r == Err(SendError(old(cm.hasEndpoint))) && cm.outbox == old(cm.outbox) && cm.inbox == old(cm.inbox) &&
      m.Contents() == old(m.Contents())
    ensures RunSendable(old(cm.hasEndpoint), old(m.local), old(m.Contents())) ==>
      cm.outbox == old(cm.outbox) + [RunRequest(old(m.local), old(m.Contents()))] &&
      (if old(m.local) then m.Contents() == [] && !m.building else m.Contents() == old(m.Contents()))
    ensures RunSendable(old(cm.hasEndpoint), old(m.local), old(m.Contents())) ==>
      if old(cm.inbox) == [] then r == Err(Timeout) && cm.inbox == old(cm.inbox)
      else if |old(cm.inbox)[0].payload| != 8 then r == Err(StructError) && cm.inbox == old(cm.inbox)[1..]
      else if |old(cm.inbox)| == 1 then r == Err(Timeout) && cm.inbox == []
      else r == Ok(old(cm.inbox)[1]) && cm.inbox == old(cm.inbox)[2..]
  {
    m.endIsFloat := false;
    var sent :- SendRun(m, cm);
    var runReturn :- cm.Receive();
    if |runReturn.payload| != 8 {
      return Err(StructError);
    }
    var doneMsg :- cm.Receive();
    return Ok(doneMsg);
  }

  /** The run message of `run_sequence_chain` as written: the slice end
      `seqendindex * lengthpayload` is a float after any `addElement`, and a
      float slice index is a TypeError. */
  function ChainMessageAsWritten(endIndex: nat, endIsFloat: bool, buffer: seq<byte>): (r: Result<seq<byte>>)
    requires endIndex * 24 <= |buffer|
    ensures endIsFloat ==> r == Err(TypeError)
    ensures !endIsFloat ==> r == Ok(RunMessage(buffer[..endIndex * 24]))
  {
    if endIsFloat then Err(TypeError) else Ok(CyclePrefix + buffer[..endIndex * 24])
  }

  /** As written, a chained run fails on any buffer that a record was added to
      since the last clear, while `run_sequence` sends the same buffer. */
  lemma ChainAsWrittenRejectsBufferedRecords(e: seq<byte>, buffer: seq<byte>)
    requires |e| == 24 && |buffer| >= 24 && buffer[..24] == e
    ensures ChainMessageAsWritten(1, true, buffer) == Err(TypeError)
    ensures ChainMessageAsWritten(1, false, buffer) == Ok(RunMessage(e))
  {
  }

  /** Whether the acknowledgment check of a chained run lets it go on: always
      on the first call, and otherwise when the next message is `Done`. */
  predicate AckPasses(firstCall: bool, hasEndpoint: bool, inbox: seq<Message>)
  {
    firstCall || (hasEndpoint && inbox != [] && inbox[0] == DoneAck)
  }

  /** The messages left after a passed acknowledgment check. */
  function AfterAck(firstCall: bool, inbox: seq<Message>): seq<Message>
    requires firstCall || inbox != []
  {
    if firstCall then inbox else inbox[1..]
  }

  /** The exception of a failed acknowledgment check. */
  function AckError(hasEndpoint: bool, inbox: seq<Message>): Error
  {
    if !hasEndpoint then AttributeError else if inbox == [] then Timeout else ValueError
  }

  /** The wait for the previous run's acknowledgment at the start of a chained run. */
  method AwaitAck(m: MsgSequence, cm: ConnectionManager) returns (r: Result<()>)
    modifies cm
    ensures r.Ok? <==> AckPasses(m.chainFirstCall, old(cm.hasEndpoint), old(cm.inbox))
    ensures r.Ok? ==> cm.inbox == AfterAck(m.chainFirstCall, old(cm.inbox))
    ensures r.Err? ==> r == Err(AckError(old(cm.hasEndpoint), old(cm.inbox)))
    ensures cm.outbox == old(cm.outbox) && cm.hasEndpoint == old(cm.hasEndpoint)
  {
    if !m.chainFirstCall {
      var doneMsg :- cm.Receive();
      if doneMsg != DoneAck {
        return Err(ValueError);
      }
    }
    return Ok(());
  }

  /** `run_sequence_chain()` as written: the local branch slices with a float. */
  method RunSequenceChainAsWritten(m: MsgSequence, cm: ConnectionManager, fromF64: Bytes8 -> real) returns (r: Result<()>)
    requires m.Valid()
    modifies m, cm
    ensures m.Valid()
    ensures old(m.local) && old(m.endIsFloat) ==> r.Err?
    ensures old(m.local) && old(m.endIsFloat) && (old(m.chainFirstCall) || (old(cm.hasEndpoint) && old(cm.inbox) != [] && old(cm.inbox)[0] == DoneAck)) ==>
      r == Err(TypeError) && cm.outbox == old(cm.outbox)
  {
    var ack :- AwaitAck(m, cm);
    if m.local {
      var tcpMessage :- ChainMessageAsWritten(m.endIndex, m.endIsFloat, m.data[..]);
    }
    var sent :- SendRun(m, cm);
    var runReturn :- cm.Receive();
    if |runReturn.payload| != 8 {
      return Err(StructError);
    }
    m.chainLastRuntime := fromF64(runReturn.payload);
    m.chainFirstCall := false;
    return Ok(());
  }

  /** `run_sequence_chain()` with the slice end made an int, as `run_sequence`
      does: after the acknowledgment check (skipped on the first call) it
      sends the run like `run_sequence`, records the runtime from the reply
      and marks the chain as started. A reply that times out leaves the run
      sent and the chain not marked as started. */
  method RunSequenceChain(m: MsgSequence, cm: ConnectionManager, fromF64: Bytes8 -> real) returns (r: Result<()>)
    requires m.Valid()
    modifies m, cm
    ensures m.Valid() && m.local == old(m.local)
    ensures !AckPasses(old(m.chainFirstCall), old(cm.hasEndpoint), old(cm.inbox)) ==>
      r == Err(AckError(old(cm.hasEndpoint), old(cm.inbox))) && cm.outbox == old(cm.outbox) &&
      m.Contents() == old(m.Contents()) && m.chainFirstCall == old(m.chainFirstCall)
    ensures AckPasses(old(m.chainFirstCall), old(cm.hasEndpoint), old(cm.inbox)) &&
            !RunSendable(old(cm.hasEndpoint), old(m.local), old(m.Contents())) ==>
      r == Err(SendError(old(cm.hasEndpoint))) && cm.outbox == old(cm.outbox) &&
      cm.inbox == AfterAck(old(m.chainFirstCall), old(cm.inbox)) &&
      m.Contents() == old(m.Contents()) && m.chainFirstCall == old(m.chainFirstCall)
    ensures AckPasses(old(m.chainFirstCall), old(cm.hasEndpoint), old(cm.inbox)) &&
            RunSendable(old(cm.hasEndpoint), old(m.local), old(m.Contents())) ==>
      cm.outbox == old(cm.outbox) + [RunRequest(old(m.local), old(m.Contents()))] &&
      (if old(m.local) then m.Contents() == [] && !m.building else m.Contents() == old(m.Contents()))
    ensures AckPasses(old(m.chainFirstCall), old(cm.hasEndpoint), old(cm.inbox)) &&
            RunSendable(old(cm.hasEndpoint), old(m.local), old(m.Contents())) ==>
      var rest := AfterAck(old(m.chainFirstCall), old(cm.inbox));
      if rest == [] then
        r == Err(Timeout) && cm.inbox == rest && m.chainFirstCall == old(m.chainFirstCall)
      else if |rest[0].payload| != 8 then
        r == Err(StructError) && cm.inbox == rest[1..] && m.chainFirstCall == old(m.chainFirstCall)
      else
        r == Ok(()) && cm.inbox == rest[1..] && !m.chainFirstCall && m.chainLastRuntime == fromF64(rest[0].payload)
  {
    var ack :- AwaitAck(m, cm);
    r := ChainRun(m, cm, fromF64);
  }

  /** The part of a corrected chained run after the acknowledgment check. */
  method ChainRun(m: MsgSequence, cm: ConnectionManager, fromF64: Bytes8 -> real) returns (r: Result<()>)
    requires m.Valid()
    modifies m, cm
    ensures m.Valid() && m.local == old(m.local)
    ensures !RunSendable(old(cm.hasEndpoint), old(m.local), old(m.Contents())) ==>
      r == Err(SendError(old(cm.hasEndpoint))) && cm.outbox == old(cm.outbox) && cm.inbox == old(cm.inbox) &&
      m.Contents() == old(m.Contents()) && m.chainFirstCall == old(m.chainFirstCall)
    ensures RunSendable(old(cm.hasEndpoint), old(m.local), old(m.Contents())) ==>
      cm.outbox == old(cm.outbox) + [RunRequest(old(m.local), old(m.Contents()))] &&
      (if old(m.local) then m.Contents() == [] && !m.building else m.Contents() == old(m.Contents()))
    ensures RunSendable(old(cm.hasEndpoint), old(m.local), old(m.Contents())) ==>
      if old(cm.inbox) == [] then
        r == Err(Timeout) && cm.inbox == old(cm.inbox) && m.chainFirstCall == old(m.chainFirstCall)
      else if |old(cm.inbox)[0].payload| != 8 then
        r == Err(StructError) && cm.inbox == old(cm.inbox)[1..] && m.chainFirstCall == old(m.chainFirstCall)
      else
        r == Ok(()) && cm.inbox == old(cm.inbox)[1..] && !m.chainFirstCall &&
        m.chainLastRuntime == fromF64(old(cm.inbox)[0].payload)
  {
    m.endIsFloat := false;
    var sent :- SendRun(m, cm);
    var runReturn :- cm.Receive();
    if |runReturn.payload| != 8 {
      return Err(StructError);
    }
    m.chainLastRuntime := fromF64(runReturn.payload);
    m.chainFirstCall := false;
    return Ok(());
  }
}
