/** The coil-control helpers of Base/magnetics.py: the three-line digital
    setpoint selectors of the cart, pinch and bias servos, the shared
    pinch/bias supply voltage, and the fast FET pulse. */
module Magnetics {
  import opened Base
  import opened Bits
  import opened Events
  import opened Outputs

  /** The connector and the three lines of a servo's setpoint selector,
      as Base/channels.py lists them. */
  datatype Lines = Lines(connector: int, line2: nat, line1: nat, line0: nat)

  const PinchLines: Lines := Lines(1, 12, 8, 10)
  const BiasLines: Lines := Lines(1, 20, 16, 18)
  const CartLines: Lines := Lines(3, 12, 8, 10)

  /** The FET gate line, connector 3 pin 4. */
  const FetsConnector: int := 3
  const FetsPin: int := 4

  /** The three lines are different lines. */
  predicate Distinct(l: Lines)
  {
    l.line2 != l.line1 && l.line2 != l.line0 && l.line1 != l.line0
  }

  /** `1 << line2 | 1 << line1 | 1 << line0`. */
  function SetpointMask(l: Lines): nat
  {
    Or(Or(Pow2(l.line2), Pow2(l.line1)), Pow2(l.line0))
  }

  /** `((i >> 2) & 1) << line2 | ((i >> 1) & 1) << line1 | (i & 1) << line0`. */
  function SetpointState(l: Lines, i: int): nat
  {
    Or(Or(Bit(i, 2) * Pow2(l.line2), Bit(i, 1) * Pow2(l.line1)), Bit(i, 0) * Pow2(l.line0))
  }

  /** The body shared by `cart_digital_setpoint`, `pinch_digital_setpoint`
      and `bias_digital_setpoint`: one `set_digital_state` record with the
      three lines enabled, returning `digital_time_step`. */
  function DigitalSetpoint(l: Lines, seqTime: real, i: int): (r: Outcome)
    ensures |r.calls| == 1 && r.elapsed == Ok(DigitalTimeStep)
    ensures r.calls[0].SetDigital? && r.calls[0].time == seqTime && r.calls[0].connector == l.connector
    ensures r.calls[0].mask == r.calls[0].enable
  {
    var mask := SetpointMask(l);
    Outcome([SetDigital(seqTime, l.connector, mask, mask, SetpointState(l, i))], Ok(DigitalTimeStep))
  }

  /** `cart_digital_setpoint`: 0 off, 1 analog control, 6 10 A (MOT), 7 192 A (QP trap). */
  function CartDigitalSetpoint(seqTime: real, i: int): (r: Outcome)
    ensures r.calls == [SetDigital(seqTime, 3, 0x1500, 0x1500, SetpointState(CartLines, i))]
    ensures r.elapsed == Ok(DigitalTimeStep)
  {
    SetpointMaskBits(CartLines, 0);
    LowLinePowers();
    DigitalSetpoint(CartLines, seqTime, i)
  }

  /** `pinch_digital_setpoint`: 0 off, 1 analog control, 2 585 A, 3 10 A. */
  function PinchDigitalSetpoint(seqTime: real, i: int): (r: Outcome)
    ensures r.calls == [SetDigital(seqTime, 1, 0x1500, 0x1500, SetpointState(PinchLines, i))]
    ensures r.elapsed == Ok(DigitalTimeStep)
  {
    SetpointMaskBits(PinchLines, 0);
    LowLinePowers();
    DigitalSetpoint(PinchLines, seqTime, i)
  }

  /** `bias_digital_setpoint`: 0 off, 1 analog control, 2 300 A, 3 5 A. */
  function BiasDigitalSetpoint(seqTime: real, i: int): (r: Outcome)
    ensures r.calls == [SetDigital(seqTime, 1, 0x15_0000, 0x15_0000, SetpointState(BiasLines, i))]
    ensures r.elapsed == Ok(DigitalTimeStep)
  {
    SetpointMaskBits(BiasLines, 0);
    BiasLinePowers();
    DigitalSetpoint(BiasLines, seqTime, i)
  }

  /** The powers of two of the cart and pinch selectors' lines 8, 10 and 12. */
  lemma LowLinePowers()
    ensures Pow2(8) == 0x100 && Pow2(10) == 0x400 && Pow2(12) == 0x1000
  {
    assert Pow2(4) == 16;
    Pow2Add(4, 4);
    assert Pow2(2) == 4;
    Pow2Add(8, 2);
    Pow2Add(10, 2);
  }

  /** The powers of two of the bias selector's lines 16, 18 and 20. */
  lemma BiasLinePowers()
    ensures Pow2(16) == 0x1_0000 && Pow2(18) == 0x4_0000 && Pow2(20) == 0x10_0000
  {
    LowLinePowers();
    Pow2Add(8, 8);
    assert Pow2(2) == 4;
    Pow2Add(16, 2);
    Pow2Add(18, 2);
  }

  /** The configured selector lines of the three servos are distinct. */
  lemma ConfiguredLinesDistinct()
    ensures Distinct(CartLines) && Distinct(PinchLines) && Distinct(BiasLines)
  {
  }

  /** Bit k of a flag shifted to position j. */
  lemma BitOfFlag(flag: int, j: nat, k: nat)
    requires flag == 0 || flag == 1
    ensures Bit(flag * Pow2(j), k) == if j == k then flag else 0
  {
    if flag == 0 {
      BitZero(k);
    } else {
      BitOfPow2(j, k);
    }
  }

  /** The mask sets exactly the three configured lines, and is their sum. */
  lemma SetpointMaskBits(l: Lines, k: nat)
    requires Distinct(l)
    ensures Bit(SetpointMask(l), k) == if k == l.line2 || k == l.line1 || k == l.line0 then 1 else 0
    ensures SetpointMask(l) == Pow2(l.line2) + Pow2(l.line1) + Pow2(l.line0)
  {
    var a := Pow2(l.line2);
    var b := Pow2(l.line1);
    var c := Pow2(l.line0);
    var ab := Or(a, b);
    BitOfOr(a, b, k);
    BitOfOr(ab, c, k);
    BitOfPow2(l.line2, k);
    BitOfPow2(l.line1, k);
    BitOfPow2(l.line0, k);
    BitOfPow2(l.line2, l.line1);
    OrFreshBit(a, l.line1);
    BitOfOr(a, b, l.line0);
    BitOfPow2(l.line2, l.line0);
    BitOfPow2(l.line1, l.line0);
    OrFreshBit(ab, l.line0);
  }

  /** Line0 carries bit 0 of the selector, line1 bit 1 and line2 bit 2, and
      every other line is 0. */
  lemma SetpointStateBits(l: Lines, i: int, k: nat)
    requires Distinct(l)
    ensures Bit(SetpointState(l, i), l.line0) == Bit(i, 0)
    ensures Bit(SetpointState(l, i), l.line1) == Bit(i, 1)
    ensures Bit(SetpointState(l, i), l.line2) == Bit(i, 2)
    ensures k != l.line2 && k != l.line1 && k != l.line0 ==> Bit(SetpointState(l, i), k) == 0
  {
    forall p: nat | p == k || p == l.line0 || p == l.line1 || p == l.line2
      ensures Bit(SetpointState(l, i), p) ==
        if p == l.line2 then Bit(i, 2) else if p == l.line1 then Bit(i, 1) else if p == l.line0 then Bit(i, 0) else 0
    {
      var a := Bit(i, 2) * Pow2(l.line2);
      var b := Bit(i, 1) * Pow2(l.line1);
      var c := Bit(i, 0) * Pow2(l.line0);
      BitOfOr(Or(a, b), c, p);
      BitOfOr(a, b, p);
      BitOfFlag(Bit(i, 2), l.line2, p);
      BitOfFlag(Bit(i, 1), l.line1, p);
      BitOfFlag(Bit(i, 0), l.line0, p);
    }
  }

  /** The state never drives a line outside the mask. */
  lemma SetpointStateWithinMask(l: Lines, i: int)
    ensures Sub(SetpointState(l, i), SetpointMask(l))
  {
    var a := Bit(i, 2) * Pow2(l.line2);
    var b := Bit(i, 1) * Pow2(l.line1);
    var c := Bit(i, 0) * Pow2(l.line0);
    SubFlag(Bit(i, 2), l.line2);
    SubFlag(Bit(i, 1), l.line1);
    SubFlag(Bit(i, 0), l.line0);
    SubOr(a, b, Pow2(l.line2), Pow2(l.line1));
    SubOr(Or(a, b), c, Or(Pow2(l.line2), Pow2(l.line1)), Pow2(l.line0));
  }

  /** Bits 0, 1 and 2 are the parities of `i`, `i / 2` and `i / 4`. */
  lemma LowBitsShifted(i: int)
    ensures Bit(i, 0) == i % 2 && Bit(i, 1) == (i / 2) % 2 && Bit(i, 2) == (i / 4) % 2
  {
    assert Shr(i, 1) == i / 2;
    assert Shr(i, 2) == Shr(i / 2, 1) == i / 2 / 2;
    assert i / 2 / 2 == i / 4;
  }

  /** The three low bits of an integer (Python's arithmetic shift, so also
      for negative selectors) are the digits of `i % 8`. */
  lemma LowBits(i: int)
    ensures Bit(i, 0) + 2 * Bit(i, 1) + 4 * Bit(i, 2) == i % 8
    ensures Bit(i % 8, 0) == Bit(i, 0) && Bit(i % 8, 1) == Bit(i, 1) && Bit(i % 8, 2) == Bit(i, 2)
  {
    LowBitsShifted(i);
    LowBitsShifted(i % 8);
    var r := i % 8;
    var q := i / 8;
    assert i == 8 * q + r;
    assert i / 2 == 4 * q + r / 2;
    assert i / 4 == 2 * q + r / 4;
  }

  /** Only `i % 8` matters: selectors that agree modulo 8 write the same state. */
  lemma SetpointModulo(l: Lines, i: int)
    ensures SetpointState(l, i) == SetpointState(l, i % 8)
  {
    LowBits(i);
  }

  /** Reading the three lines back recovers the selector modulo 8. */
  lemma SetpointRoundTrip(l: Lines, i: int)
    requires Distinct(l)
    ensures var s := SetpointState(l, i);
      Bit(s, l.line0) + 2 * Bit(s, l.line1) + 4 * Bit(s, l.line2) == i % 8
  {
    SetpointStateBits(l, i, 0);
    LowBits(i);
  }

  /** The record `DigitalSetpoint` emits enables exactly the three lines and
      selects `i % 8` on them. */
  lemma DigitalSetpointRecord(l: Lines, seqTime: real, i: int)
    requires Distinct(l)
    ensures var c := DigitalSetpoint(l, seqTime, i).calls[0];
      c.mask == Pow2(l.line2) + Pow2(l.line1) + Pow2(l.line0) &&
      Sub(c.state, c.mask) &&
      Bit(c.state, l.line0) + 2 * Bit(c.state, l.line1) + 4 * Bit(c.state, l.line2) == i % 8
  {
    SetpointMaskBits(l, 0);
    SetpointStateWithinMask(l, i);
    SetpointRoundTrip(l, i);
  }

  // ---------------------------------------------------------------------
  // pinch_bias_voltage

  /** The voltages the pinch and bias coils need at a given current. */
  function PinchVoltage(ip: real): real { 0.0054 * ip + 0.46222 }
  function BiasVoltage(ib: real): real { 0.011 * ib + 0.165 }

  /** `pinch_bias_voltage`: the two coils share one supply, which is set for
      whichever coil needs more (the bias coil alone when the pinch is off);
      above 150 A of bias it refuses. */
  function PinchBiasVoltage(ip: real, ib: real): (r: Result<real>)
    ensures r.Err? <==> ib > 150.0
    ensures r.Err? ==> r.error == ValueError
  {
    var pinch := PinchVoltage(ip);
    var bias := BiasVoltage(ib);
    if ib > 150.0 then Err(ValueError)
    else if ip == 0.0 then Ok(-5.0 / 8.0 * bias)
    else if pinch > bias then Ok(-5.0 / 8.0 * pinch)
    else Ok(-5.0 / 8.0 * bias)
  }

  /** The supply voltage (as a control voltage, `-5/8` of the supply) is the
      larger of the two coil voltages: at least each coil's voltage and equal
      to one of them; with the pinch off it is the bias voltage even if the
      pinch coil's offset is the larger. */
  lemma PinchBiasSupply(ip: real, ib: real)
    requires ib <= 150.0
    ensures var v := PinchBiasVoltage(ip, ib).value * (-8.0 / 5.0);
      (ip == 0.0 ==> v == BiasVoltage(ib)) &&
      (ip != 0.0 ==> v >= PinchVoltage(ip) && v >= BiasVoltage(ib) &&
                      (v == PinchVoltage(ip) || v == BiasVoltage(ib)))
  {
  }

  /** More bias current never asks for a lower supply. */
  lemma PinchBiasMonotone(ip: real, ib: real, ib': real)
    requires ib <= ib' <= 150.0
    ensures PinchBiasVoltage(ip, ib').value <= PinchBiasVoltage(ip, ib).value
  {
  }

  // ---------------------------------------------------------------------
  // fets_fast_on

  /** `fets_fast_on`: the FET line high at `seq_time` and low 1 ms later;
      returns 1 ms plus the second write's `digital_time_step`. */
  function FetsFastOn(seqTime: real): (r: Outcome)
    ensures r.elapsed == Ok(1.0 * ms + DigitalTimeStep) && |r.calls| == 2
    ensures r.calls[0].SetDigital? && r.calls[0].time == seqTime && r.calls[0].connector == FetsConnector
    ensures r.calls[1].SetDigital? && r.calls[1].time == seqTime + 1.0 * ms && r.calls[1].connector == FetsConnector
    ensures r.calls[0].mask == Pow2(FetsPin) && r.calls[1].mask == Pow2(FetsPin)
    ensures Bit(r.calls[0].state, FetsPin) == 1 && Bit(r.calls[1].state, FetsPin) == 0
  {
    var on := DigitalOut(seqTime, FetsConnector, FetsPin, 1);
    var off := DigitalOut(seqTime + 1.0 * ms, FetsConnector, FetsPin, 0);
    Outcome(on.calls + off.calls, Ok(1.0 * ms + off.elapsed.value))
  }
}
