/** The bit-banged serial encoders of Base/boards.py: the `PeripheralBoard`
    shift register (`_spi`, `_update_output`), `reverse_bits`, the `XPSwitch`
    cross-point switch and the `AD5372` DAC. Every method here returns the
    calls it makes to `ew_link.set_digital_state`, in call order, together
    with the value the Python method returns. */
module Boards {
  import opened Base
  import opened Bits
  import opened Wire
  import opened Events
  import Outputs

  // ---------------------------------------------------------------------
  // PeripheralBoard

  /** A `PeripheralBoard`: its connector, the serial io and clock lines, and
      the length of one line transition, `spi_min_time`. */
  datatype Board = Board(connector: int, ioPin: nat, clockPin: nat, minTime: real)

  /** `PeripheralBoard.__init__`: `spi_min_time` is `digital_time_step`. */
  function NewBoard(connector: int, ioPin: nat, clockPin: nat): (b: Board)
    ensures b.minTime == Outputs.DigitalTimeStep && b.minTime > 0.0
  {
    Board(connector, ioPin, clockPin, Outputs.DigitalTimeStep)
  }

  /** One record that drives a single line: mask, enable and state all on `pin`. */
  function Line(connector: int, time: real, pin: nat, level: int): Call
    requires level == 0 || level == 1
  {
    SetDigital(time, connector, Pow2(pin), Pow2(pin), level * Pow2(pin))
  }

  /** Bit `pin` of a record's state (0 for anything but a digital record). */
  function Level(c: Call, pin: nat): int
  {
    if c.SetDigital? then Bit(c.state, pin) else 0
  }

  /** A single-line record sets exactly that line to its level. */
  lemma LineLevel(connector: int, time: real, pin: nat, level: int)
    requires level == 0 || level == 1
    ensures Level(Line(connector, time, pin, level), pin) == level
    ensures Sub(level * Pow2(pin), Pow2(pin))
  {
    BitOfShifted(level, 0, pin, pin);
    SubFlag(level, pin);
  }

  /** `channel_select` (and `out_enable`) of `_spi`: the io and clock lines. */
  function SpiMask(b: Board): nat
  {
    Or(Pow2(b.ioPin), Pow2(b.clockPin))
  }

  /** The state of one `_spi` record: a data bit on the io line and the clock level on the clock line. */
  function SpiState(b: Board, bit: int, clock: int): nat
    requires bit == 0 || bit == 1
    requires clock == 0 || clock == 1
  {
    Or(bit * Pow2(b.ioPin), clock * Pow2(b.clockPin))
  }

  /** With distinct lines, a `_spi` state carries the data bit on io and the clock level on clock. */
  lemma SpiStateLines(b: Board, bit: int, clock: int)
    requires bit == 0 || bit == 1
    requires clock == 0 || clock == 1
    requires b.ioPin != b.clockPin
    ensures Bit(SpiState(b, bit, clock), b.ioPin) == bit
    ensures Bit(SpiState(b, bit, clock), b.clockPin) == clock
    ensures Sub(SpiState(b, bit, clock), SpiMask(b))
  {
    var io, ck := b.ioPin, b.clockPin;
    BitOfOr(bit * Pow2(io), clock * Pow2(ck), io);
    BitOfOr(bit * Pow2(io), clock * Pow2(ck), ck);
    BitOfPow2(io, io);
    BitOfPow2(ck, ck);
    BitOfPow2(io, ck);
    BitOfPow2(ck, io);
    BitZero(io);
    BitZero(ck);
    SubFlag(bit, io);
    SubFlag(clock, ck);
    SubOr(bit * Pow2(io), clock * Pow2(ck), Pow2(io), Pow2(ck));
  }

  /** The value shifted out u-th by `_spi`: the payload from its last byte back, then the register. */
  function SpiUnit(bytes: seq<byte>, register: int, u: nat): int
  {
    if u < |bytes| then bytes[|bytes| - 1 - u] else register
  }

  /** The j-th record `_spi` emits: value j / 16, bit (j % 16) / 2, clock high
      on even j and low on odd j, at `spi_min_time` before the previous one. */
  function SpiRecord(b: Board, spiTime: real, bytes: seq<byte>, register: int, j: nat): Call
  {
    SetDigital(spiTime - Ticks(j + 1, b.minTime), b.connector, SpiMask(b), SpiMask(b),
               SpiState(b, Bit(SpiUnit(bytes, register, j / 16), (j % 16) / 2), 1 - j % 2))
  }

  /** Every record `_spi` emits, in emission order. */
  function SpiCalls(b: Board, spiTime: real, bytes: seq<byte>, register: int): (r: seq<Call>)
    ensures |r| == 16 * (|bytes| + 1)
  {
    seq(16 * (|bytes| + 1), j requires 0 <= j => SpiRecord(b, spiTime, bytes, register, j))
  }

  /** `PeripheralBoard._spi`: shifts the payload and then the register out,
      two records per bit, going back in time from `spi_time`; returns 0. */
  method Spi(b: Board, spiTime: real, bytesToWrite: seq<byte>, register: int) returns (calls: seq<Call>, r: real)
    ensures calls == SpiCalls(b, spiTime, bytesToWrite, register)
    ensures r == 0.0
  {
    ghost var all := SpiCalls(b, spiTime, bytesToWrite, register);
    var currentTime := spiTime;
    calls := [];
    var more: seq<Call>;
    var u := 0;
    while u < |bytesToWrite|
      invariant 0 <= u <= |bytesToWrite|
      invariant calls == all[..16 * u]
      invariant currentTime == spiTime - Ticks(16 * u, b.minTime)
    {
      more, currentTime := ShiftOut(b, spiTime, bytesToWrite, register, u, bytesToWrite[|bytesToWrite| - 1 - u], currentTime);
      SliceJoin(all, 16 * u, 16 * u + 16);
      calls := calls + more;
      u := u + 1;
    }
    more, currentTime := ShiftOut(b, spiTime, bytesToWrite, register, u, register, currentTime);
    SliceJoin(all, 16 * u, 16 * u + 16);
    calls := calls + more;
    r := 0.0;
  }

  /** One `for individual_bits in range(8)` loop of `_spi`: the 16 records of value u. */
  method ShiftOut(b: Board, spiTime: real, bytes: seq<byte>, register: int, u: nat, value: int, time: real)
    returns (more: seq<Call>, currentTime: real)
    requires u <= |bytes| && value == SpiUnit(bytes, register, u)
    requires time == spiTime - Ticks(16 * u, b.minTime)
    ensures more == SpiCalls(b, spiTime, bytes, register)[16 * u..16 * u + 16]
    ensures currentTime == spiTime - Ticks(16 * u + 16, b.minTime)
  {
    ghost var all := SpiCalls(b, spiTime, bytes, register);
    var channelSelect := Or(Pow2(b.ioPin), Pow2(b.clockPin));
    var outEnable := channelSelect;
    currentTime := time;
    more := [];
    var bit := 0;
    while bit < 8
      invariant 0 <= bit <= 8
      invariant more == all[16 * u..16 * u + 2 * bit]
      invariant currentTime == spiTime - Ticks(16 * u + 2 * bit, b.minTime)
    {
      var j := 16 * u + 2 * bit;
      SpiIndex(u, bit);
      currentTime := currentTime - b.minTime;
      var state := Or(Bit(value, bit) * Pow2(b.ioPin), 1 * Pow2(b.clockPin));
      var high := SetDigital(currentTime, b.connector, channelSelect, outEnable, state);
      assert high == all[j];
      currentTime := currentTime - b.minTime;
      state := Or(Bit(value, bit) * Pow2(b.ioPin), 0 * Pow2(b.clockPin));
      var low := SetDigital(currentTime, b.connector, channelSelect, outEnable, state);
      assert low == all[j + 1];
      SliceGrow2(all, 16 * u, j);
      more := more + [high, low];
      bit := bit + 1;
    }
  }

  /** The positions of bit w of value u in the emission order. */
  lemma SpiIndex(u: nat, w: nat)
    requires w < 8
    ensures (16 * u + 2 * w) / 16 == u && ((16 * u + 2 * w) % 16) / 2 == w && (16 * u + 2 * w) % 2 == 0
    ensures (16 * u + 2 * w + 1) / 16 == u && ((16 * u + 2 * w + 1) % 16) / 2 == w && (16 * u + 2 * w + 1) % 2 == 1
  {
    DivMod16(u, 2 * w);
    DivMod16(u, 2 * w + 1);
    DivMod2(w, 0);
    DivMod2(w, 1);
    DivMod2(8 * u + w, 0);
    DivMod2(8 * u + w, 1);
  }

  /** Euclidean division by 16 and by 2. */
  lemma DivMod16(q: int, r: int)
    requires 0 <= r < 16
    ensures (16 * q + r) / 16 == q && (16 * q + r) % 16 == r
  {
  }

  lemma DivMod2(q: int, r: int)
    requires 0 <= r < 2
    ensures (2 * q + r) / 2 == q && (2 * q + r) % 2 == r
  {
  }

  lemma SliceJoin<T>(s: seq<T>, i: nat, j: nat)
    requires i <= j <= |s|
    ensures s[..i] + s[i..j] == s[..j]
  {
  }

  lemma SliceGrow2<T>(s: seq<T>, i: nat, j: nat)
    requires i <= j && j + 2 <= |s|
    ensures s[i..j + 2] == s[i..j] + [s[j], s[j + 1]]
  {
  }

  /** Every `_spi` record is on the board's connector, with mask and enable
      the io and clock lines and a state within them. */
  lemma SpiShape(b: Board, spiTime: real, bytes: seq<byte>, register: int)
    ensures var calls := SpiCalls(b, spiTime, bytes, register);
      forall j :: 0 <= j < |calls| ==>
        (calls[j].SetDigital? && calls[j].connector == b.connector && calls[j].mask == SpiMask(b) &&
         calls[j].enable == SpiMask(b) && calls[j].state >= 0 && Sub(calls[j].state, SpiMask(b)))
  {
    var calls := SpiCalls(b, spiTime, bytes, register);
    forall j | 0 <= j < |calls|
      ensures Sub(calls[j].state, SpiMask(b))
    {
      SpiRecordWithin(b, Bit(SpiUnit(bytes, register, j / 16), (j % 16) / 2), 1 - j % 2);
    }
  }

  lemma SpiRecordWithin(b: Board, bit: int, clock: int)
    requires bit == 0 || bit == 1
    requires clock == 0 || clock == 1
    ensures Sub(SpiState(b, bit, clock), SpiMask(b))
  {
    SubFlag(bit, b.ioPin);
    SubFlag(clock, b.clockPin);
    SubOr(bit * Pow2(b.ioPin), clock * Pow2(b.clockPin), Pow2(b.ioPin), Pow2(b.clockPin));
  }

  /** `_spi` goes back in time one `spi_min_time` per record, starting at
      `spi_time - spi_min_time`. */
  lemma SpiTimeAt(b: Board, spiTime: real, bytes: seq<byte>, register: int, j: nat)
    requires j < 16 * (|bytes| + 1)
    ensures SpiCalls(b, spiTime, bytes, register)[j].time == spiTime - (j + 1) as real * b.minTime
  {
    TicksLinear(j + 1, b.minTime);
  }

  /** Every `_spi` record is before `spi_time`, and none is before the last
      one emitted, at `spi_time - 16 (n + 1) spi_min_time`. */
  lemma SpiWindow(b: Board, spiTime: real, bytes: seq<byte>, register: int)
    requires b.minTime > 0.0
    ensures var calls := SpiCalls(b, spiTime, bytes, register);
      (forall j :: 0 <= j < |calls| ==> calls[|calls| - 1].time <= calls[j].time < spiTime) &&
      calls[|calls| - 1].time == spiTime - (16 * (|bytes| + 1)) as real * b.minTime
  {
    var calls := SpiCalls(b, spiTime, bytes, register);
    forall j | 0 <= j < |calls|
      ensures calls[|calls| - 1].time <= calls[j].time < spiTime
    {
      TicksMonotone(0, j + 1, b.minTime);
      if j + 1 < |calls| {
        TicksMonotone(j + 1, |calls|, b.minTime);
      }
    }
    SpiTimeAt(b, spiTime, bytes, register, |calls| - 1);
  }

  /** Each `_spi` record is earlier than every record emitted before it. */
  lemma SpiDescending(b: Board, spiTime: real, bytes: seq<byte>, register: int)
    requires b.minTime > 0.0
    ensures var calls := SpiCalls(b, spiTime, bytes, register);
      forall j, k :: 0 <= j < k < |calls| ==> calls[k].time < calls[j].time
  {
    var calls := SpiCalls(b, spiTime, bytes, register);
    forall j, k | 0 <= j < k < |calls|
      ensures calls[k].time < calls[j].time
    {
      TicksMonotone(j + 1, k + 1, b.minTime);
    }
  }

  /** n steps of `step` taken one at a time, as the Python loops do with
      `current_time -= spi_min_time`. */
  function Ticks(n: nat, step: real): real
  {
    if n == 0 then 0.0 else Ticks(n - 1, step) + step
  }

  lemma {:induction false} TicksLinear(n: nat, step: real)
    ensures Ticks(n, step) == n as real * step
  {
    if n > 0 {
      TicksLinear(n - 1, step);
    }
  }

  lemma {:induction false} TicksMonotone(i: nat, j: nat, step: real)
    requires i < j && step > 0.0
    ensures Ticks(i, step) < Ticks(j, step)
    decreases j
  {
    if i + 1 < j {
      TicksMonotone(i, j - 1, step);
    }
  }

  /** The byte at position U of the serial stream in time order: the register, then the payload in order. */
  function SerialByte(bytes: seq<byte>, register: int, U: nat): int
  {
    if U == 0 then register else if U <= |bytes| then bytes[U - 1] else 0
  }

  /** The bits `_spi` sends, in time order: the register byte and then the
      payload bytes in order, each most significant bit first. */
  function SerialBits(bytes: seq<byte>, register: int): (r: seq<int>)
    ensures |r| == 8 * (|bytes| + 1)
  {
    seq(8 * (|bytes| + 1), p requires 0 <= p => Bit(SerialByte(bytes, register, p / 8), 7 - p % 8))
  }

  /** Read in time order (from the last record emitted back to the first),
      `_spi` sends stream bit p as a clock-low record and then a clock-high
      record carrying the same bit, the low one `spi_min_time` earlier. */
  lemma SpiSerialOrder(b: Board, spiTime: real, bytes: seq<byte>, register: int, p: nat)
    requires p < 8 * (|bytes| + 1)
    ensures var calls := SpiCalls(b, spiTime, bytes, register);
      var n := |calls|;
      var bit := SerialBits(bytes, register)[p];
      calls[n - 1 - 2 * p].state == SpiState(b, bit, 0) &&
      calls[n - 2 - 2 * p].state == SpiState(b, bit, 1) &&
      calls[n - 1 - 2 * p].time == calls[n - 2 - 2 * p].time - b.minTime
  {
    var n := |bytes|;
    var U, q := p / 8, p % 8;
    assert p == 8 * U + q;
    var j := 16 * (n - U) + 2 * (7 - q);
    SpiIndex(n - U, 7 - q);
    assert 16 * (n + 1) - 2 - 2 * p == j;
    assert SpiUnit(bytes, register, n - U) == SerialByte(bytes, register, U);
  }

  /** `_update_output`: pulses the update line high at `spi_time` and low one
      `spi_min_time` later; returns `2 * spi_min_time`. The line is the
      board's `io_update_pin` keyword attribute. */
  function UpdateOutput(b: Board, updatePin: nat, spiTime: real): (r: Outcome)
    ensures r.elapsed == Ok(2.0 * b.minTime) && |r.calls| == 2
    ensures r.calls[0].SetDigital? && r.calls[0].time == spiTime && Level(r.calls[0], updatePin) == 1
    ensures r.calls[1].SetDigital? && r.calls[1].time == spiTime + b.minTime && Level(r.calls[1], updatePin) == 0
    ensures forall c :: c in r.calls ==>
      (c.SetDigital? && c.connector == b.connector && c.mask == Pow2(updatePin) &&
       c.enable == Pow2(updatePin) && c.state >= 0 && Sub(c.state, c.mask))
  {
    var thisTime := spiTime;
    var high := SetDigital(thisTime, b.connector, Pow2(updatePin), Pow2(updatePin), Pow2(updatePin));
    var low := SetDigital(thisTime + b.minTime, b.connector, Pow2(updatePin), Pow2(updatePin), 0 * Pow2(updatePin));
    LineLevel(b.connector, thisTime, updatePin, 1);
    LineLevel(b.connector, thisTime + b.minTime, updatePin, 0);
    Outcome([high, low], Ok(2.0 * b.minTime))
  }

  // ---------------------------------------------------------------------
  // reverse_bits

  /** `reverse_bits(num, bit_size)`: the digits of `bin(num)` reversed, padded
      with zeros up to `bit_size` digits, read back with `int(s, 2)`. For a
      negative `num`, `bin` starts with '-0b' and the slice keeps the 'b',
      which `int(s, 2)` rejects. */
  function ReverseBits(num: int, bitSize: int): (r: Result<nat>)
    ensures r.Ok? <==> num >= 0
    ensures r.Err? ==> r.error == ValueError
  {
    if num < 0 then Err(ValueError)
    else
      var reversed := LsbDigits(num);
      var padding := if bitSize > |reversed| then bitSize - |reversed| else 0;
      Ok(ParseMsb(reversed + ZeroDigits(padding)))
  }

  /** For `0 <= num < 2^n`, `reverse_bits(num, n)` is num with its n bits in the
      opposite order, stays below 2^n, and reversing again gives num back. */
  lemma ReverseBitsSpec(num: nat, n: nat)
    requires n >= 1 && num < Pow2(n)
    ensures ReverseBits(num, n).Ok? && ReverseBits(num, n).value < Pow2(n)
    ensures forall k :: 0 <= k < n ==> Bit(ReverseBits(num, n).value, k) == Bit(num, n - 1 - k)
    ensures ReverseBits(ReverseBits(num, n).value, n) == Ok(num)
  {
    var low := BitsLsb(num, n);
    ReversedBits(num, n);
    var v := ReverseBits(num, n).value;
    var rev := Reversed(low);
    ParseLsbBound(rev);
    BitsLsbParse(rev);
    forall k | 0 <= k < n
      ensures Bit(v, k) == Bit(num, n - 1 - k)
    {
      BitsLsbAt(v, n, k);
      BitsLsbAt(num, n, n - 1 - k);
    }
    ReversedBits(v, n);
    ReversedTwice(low);
    ParseBitsLsb(num, n);
  }

  /** `reverse_bits(x, n)` for x below 2^n reads the reversal of x's low n bits. */
  lemma ReversedBits(x: nat, n: nat)
    requires n >= 1 && x < Pow2(n)
    ensures ReverseBits(x, n) == Ok(ParseLsb(Reversed(BitsLsb(x, n))))
  {
    LsbDigitsLength(x, n);
    var m := n - |LsbDigits(x)|;
    ReverseBitsPadded(x, n);
    LsbDigitsPadded(x, m);
    ParseMsbIsLsbOfReversed(BitsLsb(x, n));
  }

  lemma ReverseBitsPadded(x: nat, n: nat)
    requires |LsbDigits(x)| <= n
    ensures ReverseBits(x, n) == Ok(ParseMsb(LsbDigits(x) + ZeroDigits(n - |LsbDigits(x)|)))
  {
  }
}
