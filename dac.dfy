/** The `AD5372` DAC board of Base/boards.py: a `PeripheralBoard` whose serial
    frames are bracketed by a SYNC line, with an LDAC line that latches the
    loaded codes into the outputs. */
module Dac {
  import opened Base
  import opened Wire
  import opened Events
  import opened Boards

  /** The board's serial lines and its SYNC and LDAC lines. */
  datatype AD5372 = AD5372(board: Board, syncPin: nat, ldacPin: nat)

  /** `v_offset` and `v_ref` of the board, in volts. */
  const VOffset: real := 4.0
  const VRef: real := 3.0

  /** `AD5372.__init__`: `spi_min_time` is 100 ns, not the parent's `digital_time_step`. */
  function NewAD5372(connector: int, ioPin: nat, clockPin: nat, syncPin: nat, ldacPin: nat): (d: AD5372)
    ensures d.board.connector == connector && d.board.ioPin == ioPin && d.board.clockPin == clockPin
    ensures d.syncPin == syncPin && d.ldacPin == ldacPin
    ensures d.board.minTime == 0.0000001
  {
    AD5372(NewBoard(connector, ioPin, clockPin).(minTime := 0.0000001), syncPin, ldacPin)
  }

  // ---------------------------------------------------------------------
  // Codes and registers

  /** The `int(0.5 + 65536 (volts + v_offset) / (4 v_ref))` of `_volts_to_code`,
      clamped to 0xFFFF. */
  function DacCode(volts: real): int
  {
    var code := Trunc(0.5 + 65536.0 * (volts + VOffset) / (4.0 * VRef));
    if code > 0xFFFF then 0xFFFF else code
  }

  /** `_volts_to_code`: the code as two big-endian bytes (`struct.pack('>H', code)`). */
  function VoltsToCode(volts: real): Result<seq<byte>>
  {
    PackU16(DacCode(volts))
  }

  /** The ideal code of a voltage: 65536 steps over the 4 v_ref span from -v_offset. */
  function IdealCode(volts: real): real
  {
    65536.0 * (volts + VOffset) / 12.0
  }

  /** `_volts_to_code` rounds the ideal code half up, saturates at 0xFFFF,
      and fails (struct.error) only when the rounded code is negative, which
      is exactly when the voltage is at least 1.5 codes below -v_offset. */
  lemma VoltsToCodeSpec(volts: real)
    ensures VoltsToCode(volts).Ok? <==> IdealCode(volts) > -1.5
    ensures VoltsToCode(volts).Ok? ==>
      (|VoltsToCode(volts).value| == 2 && FromBigEndian(VoltsToCode(volts).value) == DacCode(volts))
    ensures 0.0 <= IdealCode(volts) && DacCode(volts) < 0xFFFF ==>
      DacCode(volts) as real <= IdealCode(volts) + 0.5 < DacCode(volts) as real + 1.0
    ensures IdealCode(volts) >= 65535.5 ==> DacCode(volts) == 0xFFFF
    ensures DacCode(volts) <= 0xFFFF
  {
  }

  /** A higher voltage never gets a lower code. */
  lemma DacCodeMonotone(v: real, w: real)
    requires v <= w
    ensures DacCode(v) <= DacCode(w)
  {
    TruncMonotone(0.5 + 65536.0 * (v + VOffset) / (4.0 * VRef), 0.5 + 65536.0 * (w + VOffset) / (4.0 * VRef));
  }

  /** The ends and the middle of the range: -4 V is code 0, 0 V (what
      `initialize` loads) is 0x5555, and 8 V or more is 0xFFFF. */
  lemma DacCodePoints(v: real)
    requires v >= 8.0
    ensures VoltsToCode(-4.0) == Ok([0, 0])
    ensures VoltsToCode(0.0) == Ok([0x55, 0x55])
    ensures VoltsToCode(v) == Ok([0xFF, 0xFF])
  {
    assert DacCode(-4.0) == 0;
    assert DacCode(0.0) == 0x5555;
    assert DacCode(v) == 0xFFFF;
    BigEndian2(0);
    BigEndian2(0x5555);
    BigEndian2(0xFFFF);
  }

  /** The register of `load` and `set`: `int(hex(0xC0 + 0x08 + channel), 16)`,
      that is 0xC8 + channel. */
  function ChannelRegister(channel: int): int
  {
    0xC0 + 0x08 + channel
  }

  /** For the 40 channels 0..39 the register byte is mode bits `11` (write
      the X1 register) over the 6-bit address 8 + channel, and distinct
      channels get distinct registers. */
  lemma ChannelRegisterFields(channel: int, other: int)
    requires 0 <= channel < 40 && 0 <= other < 40
    ensures 0 <= ChannelRegister(channel) < 256
    ensures ChannelRegister(channel) / 64 == 3 && ChannelRegister(channel) % 64 == 8 + channel
    ensures ChannelRegister(channel) == ChannelRegister(other) <==> channel == other
  {
  }

  // ---------------------------------------------------------------------
  // _spi_sync

  /** The four times of `_spi_sync`, computed as its body does. */
  function SyncRise(d: AD5372, spiTime: real): real
  {
    spiTime - d.board.minTime
  }

  function SyncFall(d: AD5372, spiTime: real, n: nat): real
  {
    var m := d.board.minTime;
    SyncRise(d, spiTime) - m * (n * 8 * 2) as real - m * 16.0 - m
  }

  /** Every record of `_spi_sync(spi_time, bytes, register)`, in emission order. */
  function SyncCalls(d: AD5372, spiTime: real, bytes: seq<byte>, register: int): (r: seq<Call>)
    ensures |r| == 16 * (|bytes| + 1) + 3
  {
    var c := d.board.connector;
    var fall := SyncFall(d, spiTime, |bytes|);
    [Line(c, SyncRise(d, spiTime), d.syncPin, 1)] + SpiCalls(d.board, SyncRise(d, spiTime), bytes, register) +
    [Line(c, fall, d.syncPin, 0), Line(c, fall - d.board.minTime, d.syncPin, 1)]
  }

  /** `AD5372._spi_sync`: raises SYNC one `spi_min_time` before `spi_time`,
      shifts the frame out before that, then lowers SYNC before the frame and
      raises it once more before that; returns 0. */
  method SpiSync(d: AD5372, spiTime: real, bytesToWrite: seq<byte>, register: int) returns (calls: seq<Call>, r: real)
    ensures calls == SyncCalls(d, spiTime, bytesToWrite, register)
    ensures r == 0.0
  {
    var m := d.board.minTime;
    var thisTime := spiTime;
    thisTime := thisTime - m;
    calls := [Line(d.board.connector, thisTime, d.syncPin, 1)];
    var frame, ignored := Spi(d.board, thisTime, bytesToWrite, register);
    calls := calls + frame;
    thisTime := thisTime - m * (|bytesToWrite| * 8 * 2) as real;
    thisTime := thisTime - m * (1 * 8 * 2) as real;
    thisTime := thisTime - m;
    var low := Line(d.board.connector, thisTime, d.syncPin, 0);
    thisTime := thisTime - m;
    var high := Line(d.board.connector, thisTime, d.syncPin, 1);
    assert frame == SpiCalls(d.board, SyncRise(d, spiTime), bytesToWrite, register);
    assert low == Line(d.board.connector, SyncFall(d, spiTime, |bytesToWrite|), d.syncPin, 0);
    calls := calls + [low, high];
    r := 0.0;
  }

  /** SYNC falls `16 (n + 1) + 2` steps before `spi_time`, two steps before
      the frame's last record. */
  lemma FallTime(d: AD5372, spiTime: real, n: nat)
    ensures SyncFall(d, spiTime, n) == spiTime - (16 * (n + 1) + 2) as real * d.board.minTime
    ensures SyncFall(d, spiTime, n) == SyncRise(d, spiTime) - (16 * (n + 1)) as real * d.board.minTime - d.board.minTime
  {
    var m := d.board.minTime;
    var k := (n * 8 * 2) as real;
    assert m * k + m * 16.0 + m * 2.0 == (k + 18.0) * m;
  }

  /** Between the first SYNC record and the last two, `_spi_sync` holds
      exactly the frame `_spi` shifts out from one `spi_min_time` before
      `spi_time`. */
  lemma SyncFrame(d: AD5372, spiTime: real, bytes: seq<byte>, register: int)
    ensures var calls := SyncCalls(d, spiTime, bytes, register);
      calls[1..16 * (|bytes| + 1) + 1] == SpiCalls(d.board, spiTime - d.board.minTime, bytes, register)
  {
  }

  /** In time order, `_spi_sync` raises SYNC, lowers it one `spi_min_time`
      later, sends the frame starting one `spi_min_time` after that, and
      raises SYNC one `spi_min_time` after the frame's last record, at
      `spi_time - spi_min_time`. */
  lemma SyncEdges(d: AD5372, spiTime: real, bytes: seq<byte>, register: int)
    ensures var calls := SyncCalls(d, spiTime, bytes, register);
      var m := d.board.minTime;
      var k := 16 * (|bytes| + 1);
      calls[0].time == spiTime - m && Level(calls[0], d.syncPin) == 1 &&
      calls[k + 1].time == spiTime - (k + 2) as real * m && Level(calls[k + 1], d.syncPin) == 0 &&
      calls[k + 2].time == calls[k + 1].time - m && Level(calls[k + 2], d.syncPin) == 1
  {
    var m := d.board.minTime;
    var fall := SyncFall(d, spiTime, |bytes|);
    FallTime(d, spiTime, |bytes|);
    LineLevel(d.board.connector, spiTime - m, d.syncPin, 1);
    LineLevel(d.board.connector, fall, d.syncPin, 0);
    LineLevel(d.board.connector, fall - m, d.syncPin, 1);
  }

  /** A frame record lies between one step and `16 (n + 1)` steps before the
      frame's `spi_time`. */
  lemma FrameRecordWithin(b: Board, spiTime: real, bytes: seq<byte>, register: int, i: nat)
    requires b.minTime > 0.0 && i < 16 * (|bytes| + 1)
    ensures var t := SpiCalls(b, spiTime, bytes, register)[i].time;
      spiTime - (16 * (|bytes| + 1)) as real * b.minTime <= t <= spiTime - b.minTime
  {
    var k := 16 * (|bytes| + 1);
    var m := b.minTime;
    var lead := Ticks(i + 1, m);
    assert SpiCalls(b, spiTime, bytes, register)[i].time == spiTime - lead;
    TicksLinear(k, m);
    assert Ticks(1, m) == m;
    if 1 < i + 1 {
      TicksMonotone(1, i + 1, m);
    }
    if i + 1 < k {
      TicksMonotone(i + 1, k, m);
    }
    assert m <= lead <= Ticks(k, m);
  }

  /** SYNC is low for the whole frame: every frame record lies at least one
      `spi_min_time` after SYNC falls and before it rises again. */
  lemma SyncBrackets(d: AD5372, spiTime: real, bytes: seq<byte>, register: int)
    requires d.board.minTime > 0.0
    ensures var calls := SyncCalls(d, spiTime, bytes, register);
      var k := 16 * (|bytes| + 1);
      forall j :: 1 <= j <= k ==> calls[k + 1].time + d.board.minTime <= calls[j].time <= calls[0].time - d.board.minTime
  {
    var calls := SyncCalls(d, spiTime, bytes, register);
    var m := d.board.minTime;
    var k := 16 * (|bytes| + 1);
    var rise := SyncRise(d, spiTime);
    var frame := SpiCalls(d.board, rise, bytes, register);
    FallTime(d, spiTime, |bytes|);
    assert calls[k + 1].time + m == rise - k as real * m;
    assert calls[0].time == rise;
    forall j | 1 <= j <= k
      ensures rise - k as real * m <= calls[j].time <= rise - m
    {
      assert calls[j] == frame[j - 1];
      FrameRecordWithin(d.board, rise, bytes, register, j - 1);
    }
  }

  // ---------------------------------------------------------------------
  // initialize, load and set

  /** The records of `load`/`set` after the conversion succeeded. */
  function LoadCalls(d: AD5372, spiTime: real, code: seq<byte>, channel: int): seq<Call>
  {
    SyncCalls(d, spiTime, code, ChannelRegister(channel)) +
    [Line(d.board.connector, spiTime + d.board.minTime, d.ldacPin, 1)]
  }

  /** `AD5372.initialize`: LDAC low at `spi_time`, code 0 V to the X1 register
      of every channel (register 0xC0), LDAC high one `spi_min_time` later;
      returns `2 spi_min_time`. */
  method Initialize(d: AD5372, spiTime: real) returns (calls: seq<Call>, r: Result<real>)
    ensures r == Ok(2.0 * d.board.minTime)
    ensures calls == [Line(d.board.connector, spiTime, d.ldacPin, 0)] +
      SyncCalls(d, spiTime, [0x55, 0x55], 0xC0) +
      [Line(d.board.connector, spiTime + d.board.minTime, d.ldacPin, 1)]
  {
    var thisTime := spiTime;
    calls := [Line(d.board.connector, thisTime, d.ldacPin, 0)];
    var code := VoltsToCode(0.0);
    DacCodePoints(8.0);
    var frame, ignored := SpiSync(d, spiTime, code.value, 0xC0);
    calls := calls + frame;
    thisTime := spiTime + d.board.minTime;
    calls := calls + [Line(d.board.connector, thisTime, d.ldacPin, 1)];
    r := Ok(2.0 * d.board.minTime);
  }

  /** `AD5372.load`: the voltage is converted first, so a failed conversion
      writes nothing; otherwise the frame for channel's register and LDAC
      high one `spi_min_time` after `spi_time`, returning `2 spi_min_time`. */
  method Load(d: AD5372, spiTime: real, channel: int, voltage: real) returns (calls: seq<Call>, r: Result<real>)
    ensures r.Err? <==> VoltsToCode(voltage).Err?
    ensures r.Err? ==> r.error == StructError && calls == []
    ensures r.Ok? ==>
      (r.value == 2.0 * d.board.minTime && calls == LoadCalls(d, spiTime, VoltsToCode(voltage).value, channel))
  {
    var register := ChannelRegister(channel);
    var code := VoltsToCode(voltage);
    if code.Err? {
      return [], Err(code.error);
    }
    var ignored: real;
    calls, ignored := SpiSync(d, spiTime, code.value, register);
    var thisTime := spiTime + d.board.minTime;
    calls := calls + [Line(d.board.connector, thisTime, d.ldacPin, 1)];
    r := Ok(2.0 * d.board.minTime);
  }

  /** `AD5372.set`: as `load` without touching LDAC; returns 0. */
  method Set(d: AD5372, spiTime: real, channel: int, voltage: real) returns (calls: seq<Call>, r: Result<real>)
    ensures r.Err? <==> VoltsToCode(voltage).Err?
    ensures r.Err? ==> r.error == StructError && calls == []
    ensures r.Ok? ==>
      (r.value == 0.0 && calls == SyncCalls(d, spiTime, VoltsToCode(voltage).value, ChannelRegister(channel)))
  {
    var reg := ChannelRegister(channel);
    var code := VoltsToCode(voltage);
    if code.Err? {
      return [], Err(code.error);
    }
    var ignored: real;
    calls, ignored := SpiSync(d, spiTime, code.value, reg);
    r := Ok(0.0);
  }

  /** `load` leaves LDAC high after the frame and `spi_time`, so the loaded
      code does not reach the output until LDAC is next pulled low; the frame
      itself ends before `spi_time`. */
  lemma LoadLatchesLater(d: AD5372, spiTime: real, code: seq<byte>, channel: int)
    requires d.board.minTime > 0.0
    ensures var calls := LoadCalls(d, spiTime, code, channel);
      var last := calls[|calls| - 1];
      Level(last, d.ldacPin) == 1 && last.time == spiTime + d.board.minTime &&
      forall j :: 0 <= j < |calls| - 1 ==> calls[j].time < last.time
  {
    var calls := LoadCalls(d, spiTime, code, channel);
    var sync := SyncCalls(d, spiTime, code, ChannelRegister(channel));
    var k := 16 * (|code| + 1);
    SyncBrackets(d, spiTime, code, ChannelRegister(channel));
    LineLevel(d.board.connector, spiTime + d.board.minTime, d.ldacPin, 1);
    forall j | 0 <= j < |calls| - 1
      ensures calls[j].time < spiTime + d.board.minTime
    {
      assert calls[j] == sync[j];
    }
  }
}
