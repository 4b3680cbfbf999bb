/** `XPSwitch` of Base/boards.py: the cross-point switch used as the master
    feed-forward. A 10-bit command word is shifted out least significant bit
    first on a data and a clock line, then latched with two strobes. */
module CrossPoint {
  import opened Base
  import opened Bits
  import opened Events
  import opened Boards
  import Timing

  /** The connector and the four lines of the switch's `channel_dictionary`. */
  datatype XPSwitch = XPSwitch(connector: int, serialStrobe: nat, clock: nat, data: nat, crosspointStrobe: nat)

  /** `clock_inc`: 4 µs. */
  const ClockInc: real := 0.000004

  /** k steps of `clock_inc`. */
  function Clock(k: int): real
  {
    k as real * 0.000004
  }

  /** The three records of bit i of a command shifted out from `spi_time`: the
      data level and the clock low together, then the clock high one
      `clock_inc` later. */
  function BitCalls(x: XPSwitch, spiTime: real, command: int, i: nat): (r: seq<Call>)
    ensures |r| == 3
  {
    var t := spiTime + Clock(2 * i - 21);
    [Line(x.connector, t, x.data, Bit(command, i)),
     Line(x.connector, t, x.clock, 0),
     Line(x.connector, t + Clock(1), x.clock, 1)]
  }

  /** The records of the first k bits. */
  function CommandBits(x: XPSwitch, spiTime: real, command: int, k: nat): (r: seq<Call>)
    ensures |r| == 3 * k
  {
    if k == 0 then [] else CommandBits(x, spiTime, command, k - 1) + BitCalls(x, spiTime, command, k - 1)
  }

  /** After the ten bits: the serial strobe high, the cross-point strobe high
      one `clock_inc` later, and one `clock_inc` after that all four lines low. */
  function StrobeCalls(x: XPSwitch, spiTime: real): (r: seq<Call>)
    ensures |r| == 6
  {
    var t := spiTime + Clock(1);
    [Line(x.connector, spiTime - Clock(1), x.serialStrobe, 1),
     Line(x.connector, spiTime, x.crosspointStrobe, 1),
     Line(x.connector, t, x.serialStrobe, 0),
     Line(x.connector, t, x.crosspointStrobe, 0),
     Line(x.connector, t, x.clock, 0),
     Line(x.connector, t, x.data, 0)]
  }

  /** Every record `_write_command` emits. */
  function CommandCalls(x: XPSwitch, spiTime: real, command: int): (r: seq<Call>)
    ensures |r| == 36
  {
    CommandBits(x, spiTime, command, 10) + StrobeCalls(x, spiTime)
  }

  /** `XPSwitch._write_command`: starts `21 * clock_inc` before `spi_time`; returns 0. */
  method WriteCommand(x: XPSwitch, spiTime: real, command: int) returns (calls: seq<Call>, r: real)
    ensures calls == CommandCalls(x, spiTime, command)
    ensures r == 0.0
  {
    var thisTime := spiTime - 21.0 * ClockInc;
    calls := [];
    for bit := 0 to 10
      invariant calls == CommandBits(x, spiTime, command, bit)
      invariant thisTime == spiTime + Clock(2 * bit - 21)
    {
      var state := Bit(command, bit);
      calls := calls + [Line(x.connector, thisTime, x.data, state)];
      calls := calls + [Line(x.connector, thisTime, x.clock, 0)];
      thisTime := thisTime + ClockInc;
      calls := calls + [Line(x.connector, thisTime, x.clock, 1)];
      thisTime := thisTime + ClockInc;
    }
    calls := calls + [Line(x.connector, thisTime, x.serialStrobe, 1)];
    thisTime := thisTime + ClockInc;
    calls := calls + [Line(x.connector, thisTime, x.crosspointStrobe, 1)];
    thisTime := thisTime + ClockInc;
    calls := calls + [Line(x.connector, thisTime, x.serialStrobe, 0)];
    calls := calls + [Line(x.connector, thisTime, x.crosspointStrobe, 0)];
    calls := calls + [Line(x.connector, thisTime, x.clock, 0)];
    calls := calls + [Line(x.connector, thisTime, x.data, 0)];
    r := 0.0;
  }

  /** Record 3i + r of the bit records is record r of bit i. */
  lemma {:induction false} CommandBitsAt(x: XPSwitch, spiTime: real, command: int, k: nat, i: nat, r: nat)
    requires i < k && r < 3
    ensures CommandBits(x, spiTime, command, k)[3 * i + r] == BitCalls(x, spiTime, command, i)[r]
  {
    if i < k - 1 {
      CommandBitsAt(x, spiTime, command, k - 1, i, r);
    }
  }

  /** The data line level of each bit's first record, in transmission order. */
  function Received(calls: seq<Call>, pin: nat): (r: seq<Digit>)
    requires |calls| >= 30
    ensures |r| == 10
  {
    seq(10, i requires 0 <= i < 10 => Level(calls[3 * i], pin))
  }

  /** `_write_command` sends the ten low bits of the command least significant
      first, so a 10-bit command is read back exactly from the data line. */
  lemma WriteCommandRoundTrip(x: XPSwitch, spiTime: real, command: nat)
    requires command < 1024
    ensures Received(CommandCalls(x, spiTime, command), x.data) == BitsLsb(command, 10)
    ensures ParseLsb(Received(CommandCalls(x, spiTime, command), x.data)) == command
  {
    var calls := CommandCalls(x, spiTime, command);
    forall i | 0 <= i < 10
      ensures Received(calls, x.data)[i] == BitsLsb(command, 10)[i]
    {
      CommandBitsAt(x, spiTime, command, 10, i, 0);
      LineLevel(x.connector, spiTime + Clock(2 * i - 21), x.data, Bit(command, i));
      BitsLsbAt(command, 10, i);
    }
    Pow2Values();
    ParseBitsLsb(command, 10);
  }

  /** The timing of `_write_command`: bit i goes out at `spi_time + (2i - 21)
      clock_inc` with the clock low, the clock rises one `clock_inc` later, the
      serial strobe rises at `spi_time - clock_inc`, the cross-point strobe at
      `spi_time`, and all four lines are low at `spi_time + clock_inc`. No
      record is outside [spi_time - 21 clock_inc, spi_time + clock_inc]. */
  lemma WriteCommandTiming(x: XPSwitch, spiTime: real, command: int)
    ensures var calls := CommandCalls(x, spiTime, command);
      (forall i :: 0 <= i < 10 ==>
        calls[3 * i].time == spiTime + Clock(2 * i - 21) && calls[3 * i + 1].time == calls[3 * i].time &&
        Level(calls[3 * i + 1], x.clock) == 0 &&
        calls[3 * i + 2].time == calls[3 * i].time + Clock(1) && Level(calls[3 * i + 2], x.clock) == 1) &&
      calls[30].time == spiTime - Clock(1) && Level(calls[30], x.serialStrobe) == 1 &&
      calls[31].time == spiTime && Level(calls[31], x.crosspointStrobe) == 1 &&
      (forall j :: 32 <= j < 36 ==> calls[j].time == spiTime + Clock(1)) &&
      Level(calls[32], x.serialStrobe) == 0 && Level(calls[33], x.crosspointStrobe) == 0 &&
      Level(calls[34], x.clock) == 0 && Level(calls[35], x.data) == 0
  {
    var calls := CommandCalls(x, spiTime, command);
    forall i | 0 <= i < 10
      ensures calls[3 * i].time == spiTime + Clock(2 * i - 21) && calls[3 * i + 1].time == calls[3 * i].time
      ensures Level(calls[3 * i + 1], x.clock) == 0
      ensures calls[3 * i + 2].time == calls[3 * i].time + Clock(1) && Level(calls[3 * i + 2], x.clock) == 1
    {
      var t := spiTime + Clock(2 * i - 21);
      CommandBitsAt(x, spiTime, command, 10, i, 0);
      CommandBitsAt(x, spiTime, command, 10, i, 1);
      CommandBitsAt(x, spiTime, command, 10, i, 2);
      LineLevel(x.connector, t, x.clock, 0);
      LineLevel(x.connector, t + Clock(1), x.clock, 1);
    }
    var t := spiTime + Clock(1);
    LineLevel(x.connector, spiTime - Clock(1), x.serialStrobe, 1);
    LineLevel(x.connector, spiTime, x.crosspointStrobe, 1);
    LineLevel(x.connector, t, x.serialStrobe, 0);
    LineLevel(x.connector, t, x.crosspointStrobe, 0);
    LineLevel(x.connector, t, x.clock, 0);
    LineLevel(x.connector, t, x.data, 0);
  }

  /** Every `_write_command` record lies in [spi_time - 21 clock_inc, spi_time + clock_inc]. */
  lemma WriteCommandWindow(x: XPSwitch, spiTime: real, command: int)
    ensures forall c :: c in CommandCalls(x, spiTime, command) ==>
      spiTime - Clock(21) <= c.time <= spiTime + Clock(1)
  {
    var calls := CommandCalls(x, spiTime, command);
    forall j | 0 <= j < 36
      ensures spiTime - Clock(21) <= calls[j].time <= spiTime + Clock(1)
    {
      if j < 30 {
        CommandBitsAt(x, spiTime, command, 10, j / 3, j % 3);
        assert j == 3 * (j / 3) + j % 3;
      }
    }
  }

  lemma Pow2Values()
    ensures Pow2(1) == 2 && Pow2(2) == 4 && Pow2(3) == 8 && Pow2(4) == 16
    ensures Pow2(7) == 128 && Pow2(10) == 1024
  {
    assert Pow2(1) == 2;
    assert Pow2(2) == 4;
    assert Pow2(3) == 8;
    assert Pow2(4) == 16;
    assert Pow2(5) == 32;
    assert Pow2(6) == 64;
    assert Pow2(7) == 128;
    assert Pow2(8) == 256;
    assert Pow2(9) == 512;
  }

  // ---------------------------------------------------------------------
  // The command word of `switch`

  /** The command word of `switch`: the y address reversed in bits 9..7, the
      x address reversed in bits 6..3, the connect flag in bit 2 and a 1 in
      bit 1 (CommandWord shows that this is the value of the `|` expression). */
  function Command(y: int, xAddress: int, connect: int): nat
    requires 0 <= y <= 7 && 0 <= xAddress <= 15
    requires connect == 0 || connect == 1
  {
    ReverseBits(y, 3).value * 128 + ReverseBits(xAddress, 4).value * 8 + connect * 4 + 2
  }

  /** `(reverse_bits(y, 3) << 7) | (reverse_bits(x, 4) << 3) | (connect << 2) | (1 << 1) | 0`;
      a shift by a constant k is a multiplication by 2^k. */
  function CommandExpr(y: int, xAddress: int, connect: int): nat
    requires 0 <= y <= 7 && 0 <= xAddress <= 15
    requires connect == 0 || connect == 1
  {
    Or(Or(Or(Or(ReverseBits(y, 3).value * 128, ReverseBits(xAddress, 4).value * 8), connect * 4), 2), 0)
  }

  /** The `|` expression of `switch` is the command word, which has ten bits
      and decodes back to its fields: bits 1..0 are `10`, bit 2 is the connect
      flag, and reversing bits 6..3 and bits 9..7 gives back the x and y
      addresses. */
  lemma CommandWord(y: int, xAddress: int, connect: int)
    requires 0 <= y <= 7 && 0 <= xAddress <= 15
    requires connect == 0 || connect == 1
    ensures CommandExpr(y, xAddress, connect) == Command(y, xAddress, connect)
    ensures Command(y, xAddress, connect) < 1024
    ensures Command(y, xAddress, connect) % 4 == 2 && (Command(y, xAddress, connect) / 4) % 2 == connect
    ensures ReverseBits((Command(y, xAddress, connect) / 8) % 16, 4) == Ok(xAddress)
    ensures ReverseBits(Command(y, xAddress, connect) / 128, 3) == Ok(y)
  {
    Pow2Values();
    ReverseBitsSpec(y, 3);
    ReverseBitsSpec(xAddress, 4);
    var r3, r4 := ReverseBits(y, 3).value, ReverseBits(xAddress, 4).value;
    Layout(r3, r4, connect);
    Fields(r3, r4, connect);
  }

  /** Splitting `r3 * 128 + r4 * 8 + connect * 4 + 2` back into its fields. */
  lemma Fields(r3: nat, r4: nat, connect: nat)
    requires r3 < 8 && r4 < 16 && connect < 2
    ensures var w := r3 * 128 + r4 * 8 + connect * 4 + 2;
      w % 4 == 2 && (w / 4) % 2 == connect && (w / 8) % 16 == r4 && w / 128 == r3
  {
    var q2 := r3 * 16 + r4;
    DivMod4(r3 * 32 + r4 * 2 + connect, 2);
    DivMod2(q2, connect);
    DivMod8(q2, connect * 4 + 2);
    DivMod16(r3, r4);
    DivMod128(r3, r4 * 8 + connect * 4 + 2);
  }

  lemma DivMod4(q: int, r: int)
    requires 0 <= r < 4
    ensures (4 * q + r) / 4 == q && (4 * q + r) % 4 == r
  {
  }

  lemma DivMod8(q: int, r: int)
    requires 0 <= r < 8
    ensures (8 * q + r) / 8 == q && (8 * q + r) % 8 == r
  {
  }

  lemma DivMod128(q: int, r: int)
    requires 0 <= r < 128
    ensures (128 * q + r) / 128 == q && (128 * q + r) % 128 == r
  {
  }

  /** With fields that fit, the ORs of the command word are sums. */
  lemma Layout(r3: nat, r4: nat, connect: nat)
    requires r3 < 8 && r4 < 16 && connect < 2
    ensures Or(Or(Or(Or(r3 * 128, r4 * 8), connect * 4), 2), 0) == r3 * 128 + r4 * 8 + connect * 4 + 2
    ensures r3 * 128 + r4 * 8 + connect * 4 + 2 < 1024
  {
    Pow2Values();
    var o1 := Or(r3 * 128, r4 * 8);
    OrShiftedBy(r3, r4 * 8, 7, 128, r3 * 128);
    var o2 := Or(o1, connect * 4);
    OrShiftedBy(r3 * 16 + r4, connect * 4, 3, 8, o1);
    var o3 := Or(o2, 2);
    OrShiftedBy(r3 * 32 + r4 * 2 + connect, 2, 2, 4, o2);
    OrZeroRight(o3);
  }

  // ---------------------------------------------------------------------
  // switch and initialize

  /** The records of `switch(spi_time, y, old_x, new_x)` for valid y and new_x:
      the disconnect command at `spi_time - 23 clock_inc` when old_x is an
      input (0..15), then the connect command at `spi_time`. */
  function SwitchCalls(x: XPSwitch, spiTime: real, y: int, oldX: int, newX: int): seq<Call>
    requires 0 <= y <= 7 && 0 <= newX <= 15
  {
    (if 0 <= oldX <= 15 then CommandCalls(x, spiTime - Clock(23), Command(y, oldX, 0)) else []) +
    CommandCalls(x, spiTime, Command(y, newX, 1))
  }

  /** `XPSwitch.switch`: ValueError for y outside 0..7 or new_x outside 0..15,
      before anything is written; otherwise returns `46 * clock_inc`. */
  method Switch(x: XPSwitch, spiTime: real, y: int, oldX: int, newX: int) returns (calls: seq<Call>, r: Result<real>)
    ensures r.Err? <==> !(0 <= y <= 7) || !(0 <= newX <= 15)
    ensures r.Err? ==> r.error == ValueError && calls == []
    ensures r.Ok? ==> r.value == Clock(46) && calls == SwitchCalls(x, spiTime, y, oldX, newX)
  {
    if y < 0 || y > 7 {
      return [], Err(ValueError);
    }
    if newX < 0 || newX > 15 {
      return [], Err(ValueError);
    }
    var thisTime := spiTime - 23.0 * ClockInc;
    var ignored: real;
    calls := [];
    if 0 <= oldX <= 15 {
      var command := CommandExpr(y, oldX, 0);
      CommandWord(y, oldX, 0);
      calls, ignored := WriteCommand(x, thisTime, command);
    }
    thisTime := spiTime;
    var command := CommandExpr(y, newX, 1);
    CommandWord(y, newX, 1);
    var more;
    more, ignored := WriteCommand(x, thisTime, command);
    calls := calls + more;
    r := Ok(46.0 * ClockInc);
  }

  /** Break before make: when old_x is an input, the switch receives the
      disconnect word (connect flag 0) and then the connect word (flag 1), and
      every record of the first comes before every record of the second. */
  lemma SwitchBreakBeforeMake(x: XPSwitch, spiTime: real, y: int, oldX: int, newX: int)
    requires 0 <= y <= 7 && 0 <= newX <= 15 && 0 <= oldX <= 15
    ensures var calls := SwitchCalls(x, spiTime, y, oldX, newX);
      |calls| == 72 &&
      ParseLsb(Received(calls[..36], x.data)) == Command(y, oldX, 0) &&
      ParseLsb(Received(calls[36..], x.data)) == Command(y, newX, 1) &&
      forall j, k :: 0 <= j < 36 <= k < 72 ==> calls[j].time < calls[k].time
  {
    var before := CommandCalls(x, spiTime - Clock(23), Command(y, oldX, 0));
    var after := CommandCalls(x, spiTime, Command(y, newX, 1));
    var calls := SwitchCalls(x, spiTime, y, oldX, newX);
    assert calls[..36] == before && calls[36..] == after;
    CommandWord(y, oldX, 0);
    CommandWord(y, newX, 1);
    WriteCommandRoundTrip(x, spiTime - Clock(23), Command(y, oldX, 0));
    WriteCommandRoundTrip(x, spiTime, Command(y, newX, 1));
    WriteCommandWindow(x, spiTime - Clock(23), Command(y, oldX, 0));
    WriteCommandWindow(x, spiTime, Command(y, newX, 1));
    forall j, k | 0 <= j < 36 <= k < 72
      ensures calls[j].time < calls[k].time
    {
      assert calls[j] == before[j] && before[j] in before;
      assert calls[k] == after[k - 36] && after[k - 36] in after;
    }
  }

  /** The records of the first k `switch(t, y, -1, 15)` calls of `initialize`,
      y = 0, 1, ..., each `46 clock_inc` after the previous one. */
  function SwitchRun(x: XPSwitch, t: real, k: nat): (r: seq<Call>)
    requires k <= 8
    ensures |r| == 36 * k
  {
    if k == 0 then [] else SwitchRun(x, t, k - 1) + SwitchCalls(x, t + Clock(46 * (k - 1)), k - 1, -1, 15)
  }

  /** Every record of `initialize`: command 3 at `spi_time`, then the eight
      switches from `spi_time + 0.23 ms`. */
  function InitCalls(x: XPSwitch, spiTime: real): seq<Call>
  {
    CommandCalls(x, spiTime, 3) + SwitchRun(x, spiTime + 0.00023, 8)
  }

  /** The time `initialize` takes: 0.23 ms and eight switches. */
  function InitElapsed(): real
  {
    0.00023 + Clock(8 * 46)
  }

  /** The body of `XPSwitch.initialize` up to its `return`: the records and the
      final value of its `time` variable. */
  method InitializeTimeline(x: XPSwitch, spiTime: real) returns (calls: seq<Call>, time: real)
    ensures calls == InitCalls(x, spiTime)
    ensures time == spiTime + InitElapsed()
  {
    time := spiTime;
    var ignored: real;
    calls, ignored := WriteCommand(x, time, 3);
    time := time + 0.00023;
    ghost var t0, head := time, calls;
    assert calls == head + SwitchRun(x, t0, 0);
    calls, time := SwitchStep(x, time, 0, t0, head, calls);
    calls, time := SwitchStep(x, time, 1, t0, head, calls);
    calls, time := SwitchStep(x, time, 2, t0, head, calls);
    calls, time := SwitchStep(x, time, 3, t0, head, calls);
    calls, time := SwitchStep(x, time, 4, t0, head, calls);
    calls, time := SwitchStep(x, time, 5, t0, head, calls);
    calls, time := SwitchStep(x, time, 6, t0, head, calls);
    calls, time := SwitchStep(x, time, 7, t0, head, calls);
  }

  /** One `time += self.switch(time, y, -1, 15)` line of `initialize`. */
  method SwitchStep(x: XPSwitch, time: real, y: nat, ghost t0: real, ghost head: seq<Call>, calls: seq<Call>)
    returns (calls': seq<Call>, time': real)
    requires y < 8
    requires calls == head + SwitchRun(x, t0, y) && time == t0 + Clock(46 * y)
    ensures calls' == head + SwitchRun(x, t0, y + 1) && time' == t0 + Clock(46 * (y + 1))
  {
    var more, d := Switch(x, time, y, -1, 15);
    assert more == SwitchCalls(x, t0 + Clock(46 * y), y, -1, 15);
    assert SwitchRun(x, t0, y + 1) == SwitchRun(x, t0, y) + more;
    AppendAssoc(head, SwitchRun(x, t0, y), more);
    calls' := calls + more;
    time' := time + d.value;
  }

  /** `XPSwitch.initialize` as written: it returns its `time` variable, which
      is `spi_time` plus the elapsed time, not the elapsed time itself. */
  method InitializeAsWritten(x: XPSwitch, spiTime: real) returns (calls: seq<Call>, r: real)
    ensures calls == InitCalls(x, spiTime)
    ensures r == spiTime + InitElapsed()
  {
    calls, r := InitializeTimeline(x, spiTime);
  }

  /** `XPSwitch.initialize` returning the elapsed time, as its docstring and
      every other scheduled callable do. */
  method Initialize(x: XPSwitch, spiTime: real) returns (calls: seq<Call>, r: real)
    ensures calls == InitCalls(x, spiTime)
    ensures r == InitElapsed()
  {
    var time;
    calls, time := InitializeTimeline(x, spiTime);
    r := time - spiTime;
  }

  /** The two versions of `initialize` as schedulable callables. */
  function InitializeAsWrittenAction(x: XPSwitch): Action
  {
    t => Outcome(InitCalls(x, t), Ok(t + InitElapsed()))
  }

  function InitializeAction(x: XPSwitch): Action
  {
    t => Outcome(InitCalls(x, t), Ok(InitElapsed()))
  }

  /** Every record of the eight switches lies in [t - 21 clock_inc, t + (46 (k - 1) + 1) clock_inc]. */
  lemma {:induction false} SwitchRunWindow(x: XPSwitch, t: real, k: nat)
    requires 1 <= k <= 8
    ensures forall c :: c in SwitchRun(x, t, k) ==> t - Clock(21) <= c.time <= t + Clock(46 * (k - 1) + 1)
  {
    var last := t + Clock(46 * (k - 1));
    WriteCommandWindow(x, last, Command(k - 1, 15, 1));
    assert SwitchCalls(x, last, k - 1, -1, 15) == CommandCalls(x, last, Command(k - 1, 15, 1));
    if k > 1 {
      SwitchRunWindow(x, t, k - 1);
    }
  }

  /** `abs(t, xp.initialize)` (as in Base/inireset.py) with the return value as
      written puts the cursor `start_time + t` past the end of the
      initialization; with the elapsed time returned, the cursor lands at the
      end of the initialization and every record lies before it. */
  lemma InitializeCursor(c: Timing.Times, t: real, x: XPSwitch)
    ensures Timing.AbsStep(c, t, InitializeAsWrittenAction(x)).times.current ==
      (c.start + t) + (c.start + t) + InitElapsed()
    ensures Timing.AbsStep(c, t, InitializeAction(x)).times.current == c.start + t + InitElapsed()
    ensures Within(Timing.AbsStep(c, t, InitializeAction(x)).calls, c.start + t - Clock(21),
      Timing.AbsStep(c, t, InitializeAction(x)).times.current)
  {
    var at := c.start + t;
    Timing.AbsOfOutcome(c, t, InitializeAsWrittenAction(x), InitCalls(x, at), at + InitElapsed());
    Timing.AbsOfOutcome(c, t, InitializeAction(x), InitCalls(x, at), InitElapsed());
    InitializeWindow(x, at);
  }

  /** Every record of `initialize` lies in [spi_time - 21 clock_inc, spi_time + elapsed). */
  lemma InitializeWindow(x: XPSwitch, spiTime: real)
    ensures Within(InitCalls(x, spiTime), spiTime - Clock(21), spiTime + InitElapsed())
  {
    var calls := InitCalls(x, spiTime);
    WriteCommandWindow(x, spiTime, 3);
    SwitchRunWindow(x, spiTime + 0.00023, 8);
    forall i | 0 <= i < |calls|
      ensures spiTime - Clock(21) <= calls[i].time < spiTime + InitElapsed()
    {
      if i < 36 {
        assert calls[i] in CommandCalls(x, spiTime, 3);
      } else {
        assert calls[i] in SwitchRun(x, spiTime + 0.00023, 8);
      }
    }
  }
}
