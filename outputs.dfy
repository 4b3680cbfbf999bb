/** The output primitives of Base/outputwrappers.py: single digital and
    analog writes with their range checks, the quantised linear ramp, and the
    step list and settle tail of the sine oscillation. */
module Outputs {
  import opened Base
  import opened Bits
  import opened Events

  /** `digital_time_step` and `analog_time_step`. */
  const DigitalTimeStep: real := 1.0 * us
  const AnalogTimeStep: real := 2.0 * us

  /** `digital_out`: one digital line change. */
  function DigitalOut(time: real, connector: int, channel: int, state: int): (r: Outcome)
    ensures r.elapsed.Err? <==> !(0 <= connector <= 3) || !(0 <= channel <= 31) || !(state == 0 || state == 1)
    ensures r.elapsed.Err? ==> r == Outcome([], Err(ValueError))
    ensures r.elapsed.Ok? ==> r.elapsed.value == DigitalTimeStep && |r.calls| == 1
    ensures r.elapsed.Ok? ==>
      var c := r.calls[0];
      c.SetDigital? && c.time == time && c.connector == connector &&
      c.mask == Pow2(channel) && c.enable == Pow2(channel) && c.state >= 0 &&
      Sub(c.state, c.mask) && Bit(c.state, channel) == state
  {
    if connector < 0 || connector > 3 then Outcome([], Err(ValueError))
    else if channel < 0 || channel > 31 then Outcome([], Err(ValueError))
    else if state != 0 && state != 1 then Outcome([], Err(ValueError))
    else
      SubFlag(state, channel);
      BitOfPow2(channel, channel);
      BitZero(channel);
      Outcome([SetDigital(time, connector, Pow2(channel), Pow2(channel), state * Pow2(channel))], Ok(DigitalTimeStep))
  }

  /** `analog_out`: one analog write; the board takes the negated voltage. */
  function AnalogOut(time: real, board: int, channel: int, value: real): (r: Outcome)
    ensures r.elapsed.Err? <==> !(0 <= board <= 1) || !(0 <= channel <= 7) || !(-10.0 <= value <= 10.0)
    ensures r.elapsed.Err? ==> r == Outcome([], Err(ValueError))
    ensures r.elapsed.Ok? ==> r.elapsed.value == AnalogTimeStep && |r.calls| == 1
    ensures r.elapsed.Ok? ==>
      var c := r.calls[0];
      c.SetAnalog? && c.time == time && c.board == board && c.channel == channel &&
      c.value == -value && -10.0 <= c.value <= 10.0
  {
    if !(0 <= board <= 1) then Outcome([], Err(ValueError))
    else if !(0 <= channel <= 7) then Outcome([], Err(ValueError))
    else if !(-10.0 <= value <= 10.0) then Outcome([], Err(ValueError))
    else Outcome([SetAnalog(time, board, channel, -value)], Ok(AnalogTimeStep))
  }

  // ---------------------------------------------------------------------
  // AnalogRamp

  /** The 16-bit DAC code of a voltage: `int((-v / 20) * 2**16)`. */
  function RampCode(v: real): int
  {
    Trunc((-v / 20.0) * 65536.0)
  }

  /** The list of DAC codes a ramp passes through. */
  function StepList(qStart: int, qEnd: int): seq<int>
  {
    if qStart > qEnd + 1 then Range(qEnd + 1, qStart) else Range(qStart, qEnd + 1)
  }

  /** Rising codes: every code from q_start to q_end inclusive, in order. */
  lemma StepListAscending(qStart: int, qEnd: int)
    requires qStart <= qEnd
    ensures |StepList(qStart, qEnd)| == qEnd - qStart + 1
    ensures StepList(qStart, qEnd)[0] == qStart && StepList(qStart, qEnd)[qEnd - qStart] == qEnd
    ensures forall i :: 0 <= i < |StepList(qStart, qEnd)| ==> StepList(qStart, qEnd)[i] == qStart + i
  {
  }

  /** Falling codes: the codes strictly between q_end and q_start, rising;
      both end codes are left out. Equal-plus-one codes give no steps. */
  lemma StepListDescending(qStart: int, qEnd: int)
    requires qStart > qEnd + 1
    ensures |StepList(qStart, qEnd)| == qStart - qEnd - 1
    ensures forall i :: 0 <= i < |StepList(qStart, qEnd)| ==> StepList(qStart, qEnd)[i] == qEnd + 1 + i
    ensures qStart !in StepList(qStart, qEnd) && qEnd !in StepList(qStart, qEnd)
  {
  }

  lemma StepListEmpty(qStart: int, qEnd: int)
    ensures StepList(qStart, qEnd) == [] <==> qStart == qEnd + 1
  {
  }

  /** Two voltages inside [-10, 10] give codes inside [-32768, 32768]. */
  lemma RampCodeBounds(v: real)
    requires -10.0 <= v <= 10.0
    ensures -32768 <= RampCode(v) <= 32768
  {
  }

  /** The time of code s on the linear ramp, as the loop computes it with
      `slope = (q_end - q_start) / total_time`. */
  function RampTime(tStart: real, qStart: int, qEnd: int, totalTime: real, s: int): real
    requires totalTime != 0.0 && qStart != qEnd
  {
    var slope := (qEnd - qStart) as real / totalTime;
    tStart + (s - qStart) as real / slope
  }

  /** The voltage of code s: `20 * s / 2**16`. */
  function RampValue(s: int): real
  {
    20.0 * s as real / 65536.0
  }

  /** The list as emitted: reversed for falling ramps. */
  function Ordered<T>(qStart: int, qEnd: int, xs: seq<T>): (r: seq<T>)
    ensures |r| == |xs|
  {
    if qStart > qEnd + 1 then Reversed(xs) else xs
  }

  /** The times of the step list, in step-list order (before any reversal). */
  function StepTimes(tStart: real, qStart: int, qEnd: int, totalTime: real): (r: seq<real>)
    requires totalTime != 0.0 && qStart != qEnd
    ensures |r| == |StepList(qStart, qEnd)|
    ensures forall i :: 0 <= i < |r| ==> r[i] == RampTime(tStart, qStart, qEnd, totalTime, StepList(qStart, qEnd)[i])
  {
    var steps := StepList(qStart, qEnd);
    seq(|steps|, i requires 0 <= i < |steps| => RampTime(tStart, qStart, qEnd, totalTime, steps[i]))
  }

  /** The voltages of the step list, in step-list order. */
  function StepValues(qStart: int, qEnd: int): (r: seq<real>)
    ensures |r| == |StepList(qStart, qEnd)|
    ensures forall i :: 0 <= i < |r| ==> r[i] == RampValue(StepList(qStart, qEnd)[i])
  {
    var steps := StepList(qStart, qEnd);
    seq(|steps|, i requires 0 <= i < |steps| => RampValue(steps[i]))
  }

  /** The emitted times of `linear`. */
  function LinearTimes(tStart: real, qStart: int, qEnd: int, totalTime: real): (r: seq<real>)
    requires totalTime != 0.0 && qStart != qEnd
    ensures |r| == |StepList(qStart, qEnd)|
  {
    Ordered(qStart, qEnd, StepTimes(tStart, qStart, qEnd, totalTime))
  }

  /** The emitted voltages of `linear`. */
  function LinearValues(qStart: int, qEnd: int): (r: seq<real>)
    ensures |r| == |StepList(qStart, qEnd)|
  {
    Ordered(qStart, qEnd, StepValues(qStart, qEnd))
  }

  /** The calls `_output` makes: one per index, in index order. */
  function RampCalls(board: int, channel: int, times: seq<real>, values: seq<real>): (r: seq<Call>)
    requires |times| == |values|
    ensures |r| == |times|
    ensures forall i :: 0 <= i < |r| ==> r[i] == SetAnalog(times[i], board, channel, values[i])
  {
    seq(|times|, i requires 0 <= i < |times| => SetAnalog(times[i], board, channel, values[i]))
  }

  /** The time of a code is the straight line from (q_start, t_start) to (q_end, t_start + total_time). */
  lemma RampTimeLine(tStart: real, qStart: int, qEnd: int, totalTime: real, s: int)
    requires totalTime != 0.0 && qStart != qEnd
    ensures RampTime(tStart, qStart, qEnd, totalTime, s)
         == tStart + (s - qStart) as real * (totalTime / (qEnd - qStart) as real)
  {
    var d := (qEnd - qStart) as real;
    var slope := d / totalTime;
    assert slope * (totalTime / d) == 1.0;
  }

  lemma MulStrict(a: real, b: real, k: real)
    requires a < b && k > 0.0
    ensures a * k < b * k
  {
  }

  /** Entry i of a rising ramp's times is t_start plus i time quanta. */
  lemma AscendingTimeAt(tStart: real, qStart: int, qEnd: int, totalTime: real, i: int)
    requires qStart < qEnd && totalTime != 0.0 && 0 <= i < |StepList(qStart, qEnd)|
    ensures LinearTimes(tStart, qStart, qEnd, totalTime)[i] == tStart + i as real * (totalTime / (qEnd - qStart) as real)
  {
    RampTimeLine(tStart, qStart, qEnd, totalTime, StepList(qStart, qEnd)[i]);
  }

  /** Entry i of a falling ramp's times, after the reversal, is t_start plus
      i+1 time quanta. */
  lemma DescendingTimeAt(tStart: real, qStart: int, qEnd: int, totalTime: real, i: int)
    requires qStart > qEnd + 1 && totalTime != 0.0 && 0 <= i < |StepList(qStart, qEnd)|
    ensures LinearTimes(tStart, qStart, qEnd, totalTime)[i] == tStart + (i + 1) as real * (totalTime / (qStart - qEnd) as real)
  {
    var steps := StepList(qStart, qEnd);
    var n := |steps|;
    assert steps[n - 1 - i] == qStart - 1 - i;
    var ts := StepTimes(tStart, qStart, qEnd, totalTime);
    assert LinearTimes(tStart, qStart, qEnd, totalTime)[i] == ts[n - 1 - i];
    var t := RampTime(tStart, qStart, qEnd, totalTime, qStart - 1 - i);
    assert ts[n - 1 - i] == t;
    RampTimeDescending(tStart, qStart, qEnd, totalTime, i);
  }

  lemma RampTimeDescending(tStart: real, qStart: int, qEnd: int, totalTime: real, i: int)
    requires qStart > qEnd && totalTime != 0.0
    ensures RampTime(tStart, qStart, qEnd, totalTime, qStart - 1 - i)
         == tStart + (i + 1) as real * (totalTime / (qStart - qEnd) as real)
  {
    RampTimeLine(tStart, qStart, qEnd, totalTime, qStart - 1 - i);
    var d := (qStart - qEnd) as real;
    var a := (i + 1) as real;
    assert (qStart - 1 - i - qStart) as real == -a;
    assert (qEnd - qStart) as real == -d;
    NegQuotient(totalTime, d);
    NegProduct(a, totalTime / d);
  }

  lemma NegQuotient(x: real, d: real)
    requires d != 0.0
    ensures x / (-d) == -(x / d)
  {
  }

  lemma NegProduct(a: real, b: real)
    ensures (-a) * (-b) == a * b
  {
  }

  /** A rising ramp starts at t_start, reaches q_end at t_start + total_time,
      and its times strictly increase when total_time > 0. */
  lemma LinearAscending(tStart: real, qStart: int, qEnd: int, totalTime: real)
    requires qStart < qEnd && totalTime > 0.0
    ensures LinearTimes(tStart, qStart, qEnd, totalTime)[0] == tStart
    ensures LinearTimes(tStart, qStart, qEnd, totalTime)[qEnd - qStart] == tStart + totalTime
    ensures forall i, j :: 0 <= i < j < |LinearTimes(tStart, qStart, qEnd, totalTime)| ==>
      LinearTimes(tStart, qStart, qEnd, totalTime)[i] < LinearTimes(tStart, qStart, qEnd, totalTime)[j]
  {
    var ts := LinearTimes(tStart, qStart, qEnd, totalTime);
    var rate := totalTime / (qEnd - qStart) as real;
    assert rate > 0.0;
    AscendingTimeAt(tStart, qStart, qEnd, totalTime, 0);
    AscendingTimeAt(tStart, qStart, qEnd, totalTime, qEnd - qStart);
    assert (qEnd - qStart) as real * rate == totalTime;
    forall i | 0 <= i < |ts|
      ensures ts[i] == tStart + (i + 0) as real * rate
    {
      AscendingTimeAt(tStart, qStart, qEnd, totalTime, i);
    }
    assert EvenlySpaced(ts, tStart, 0, rate);
    EvenlySpacedIncrease(ts, tStart, 0, rate);
  }

  /** A falling ramp, once reversed, is emitted from code q_start-1 to code
      q_end+1, with strictly increasing times inside (t_start, t_start + total_time). */
  lemma LinearDescending(tStart: real, qStart: int, qEnd: int, totalTime: real)
    requires qStart > qEnd + 1 && totalTime > 0.0
    ensures LinearValues(qStart, qEnd)[0] == RampValue(qStart - 1)
    ensures LinearValues(qStart, qEnd)[|LinearValues(qStart, qEnd)| - 1] == RampValue(qEnd + 1)
    ensures forall i, j :: 0 <= i < j < |LinearTimes(tStart, qStart, qEnd, totalTime)| ==>
      LinearTimes(tStart, qStart, qEnd, totalTime)[i] < LinearTimes(tStart, qStart, qEnd, totalTime)[j]
    ensures forall i :: 0 <= i < |LinearTimes(tStart, qStart, qEnd, totalTime)| ==>
      tStart < LinearTimes(tStart, qStart, qEnd, totalTime)[i] < tStart + totalTime
  {
    DescendingOrder(tStart, qStart, qEnd, totalTime);
    DescendingWindow(tStart, qStart, qEnd, totalTime);
  }

  /** Entry i of ts lies i + off quanta of length rate after t0. */
  predicate EvenlySpaced(ts: seq<real>, t0: real, off: int, rate: real)
  {
    forall i :: 0 <= i < |ts| ==> ts[i] == t0 + (i + off) as real * rate
  }

  /** Times that move on by one positive quantum per entry strictly increase. */
  lemma EvenlySpacedIncrease(ts: seq<real>, t0: real, off: int, rate: real)
    requires rate > 0.0 && EvenlySpaced(ts, t0, off, rate)
    ensures forall i, j :: 0 <= i < j < |ts| ==> ts[i] < ts[j]
  {
    forall i, j | 0 <= i < j < |ts|
      ensures ts[i] < ts[j]
    {
      assert ts[i] == t0 + (i + off) as real * rate && ts[j] == t0 + (j + off) as real * rate;
      MulStrict((i + off) as real, (j + off) as real, rate);
    }
  }

  /** Every falling-ramp time, as an offset from t_start in time quanta. */
  lemma DescendingSpacing(tStart: real, qStart: int, qEnd: int, totalTime: real)
    requires qStart > qEnd + 1 && totalTime > 0.0
    ensures EvenlySpaced(LinearTimes(tStart, qStart, qEnd, totalTime), tStart, 1, totalTime / (qStart - qEnd) as real)
  {
    forall i | 0 <= i < |LinearTimes(tStart, qStart, qEnd, totalTime)|
      ensures LinearTimes(tStart, qStart, qEnd, totalTime)[i] == tStart + (i + 1) as real * (totalTime / (qStart - qEnd) as real)
    {
      DescendingTimeAt(tStart, qStart, qEnd, totalTime, i);
    }
  }

  lemma DescendingOrder(tStart: real, qStart: int, qEnd: int, totalTime: real)
    requires qStart > qEnd + 1 && totalTime > 0.0
    ensures forall i, j :: 0 <= i < j < |LinearTimes(tStart, qStart, qEnd, totalTime)| ==>
      LinearTimes(tStart, qStart, qEnd, totalTime)[i] < LinearTimes(tStart, qStart, qEnd, totalTime)[j]
  {
    var rate := totalTime / (qStart - qEnd) as real;
    assert rate > 0.0;
    DescendingSpacing(tStart, qStart, qEnd, totalTime);
    EvenlySpacedIncrease(LinearTimes(tStart, qStart, qEnd, totalTime), tStart, 1, rate);
  }

  lemma DescendingWindow(tStart: real, qStart: int, qEnd: int, totalTime: real)
    requires qStart > qEnd + 1 && totalTime > 0.0
    ensures forall i :: 0 <= i < |LinearTimes(tStart, qStart, qEnd, totalTime)| ==>
      tStart < LinearTimes(tStart, qStart, qEnd, totalTime)[i] < tStart + totalTime
  {
    var ts := LinearTimes(tStart, qStart, qEnd, totalTime);
    assert |ts| == |Range(qEnd + 1, qStart)| == qStart - qEnd - 1;
    var rate := totalTime / (qStart - qEnd) as real;
    Quantum(totalTime, qStart - qEnd);
    DescendingSpacing(tStart, qStart, qEnd, totalTime);
    EvenlySpacedWindow(ts, tStart, qStart - qEnd, rate, totalTime);
  }

  /** A positive duration split into n equal quanta. */
  lemma Quantum(total: real, n: int)
    requires n > 0 && total > 0.0
    ensures total / n as real > 0.0 && n as real * (total / n as real) == total
  {
  }

  /** Times i+1 quanta after t0, with fewer than n - 1 entries, lie strictly
      between t0 and t0 plus n quanta. */
  lemma EvenlySpacedWindow(ts: seq<real>, t0: real, n: int, rate: real, total: real)
    requires n > 0 && rate > 0.0 && n as real * rate == total && |ts| < n
    requires EvenlySpaced(ts, t0, 1, rate)
    ensures forall i :: 0 <= i < |ts| ==> t0 < ts[i] < t0 + total
  {
    forall i | 0 <= i < |ts|
      ensures t0 < ts[i] < t0 + total
    {
      assert ts[i] == t0 + (i + 1) as real * rate;
      MulStrict(0.0, (i + 1) as real, rate);
      MulStrict((i + 1) as real, n as real, rate);
    }
  }

  /** Reverses an array in place, as `list.reverse()` does. */
  method ReverseInPlace(a: array<real>)
    modifies a
    ensures a[..] == Reversed(old(a[..]))
  {
    var n := a.Length;
    var i := 0;
    while i < n / 2
      invariant 0 <= i <= n / 2
      invariant forall k :: 0 <= k < i ==> a[k] == old(a[n - 1 - k]) && a[n - 1 - k] == old(a[k])
      invariant forall k :: i <= k < n - i ==> a[k] == old(a[k])
    {
      a[i], a[n - 1 - i] := a[n - 1 - i], a[i];
      i := i + 1;
    }
  }

  /** `AnalogRamp`: the checked ramp arguments, its step list and the two
      per-step lists that a shape method fills in. */
  class AnalogRamp {
    const board: int
    const channel: int
    const totalTime: real
    const qStart: int
    const qEnd: int
    const outputSteps: seq<int>
    const length: nat
    const timeSteps: array<real>
    const analogSteps: array<real>

    predicate Valid()
    {
      outputSteps == StepList(qStart, qEnd) && length == |outputSteps| &&
      timeSteps.Length == length && analogSteps.Length == length && timeSteps != analogSteps
    }

    /** The assignments of `__init__` after its checks. */
    constructor (board: int, channel: int, valStart: real, valEnd: real, totalTime: real)
      ensures Valid()
      ensures this.board == board && this.channel == channel && this.totalTime == totalTime
      ensures qStart == RampCode(valStart) && qEnd == RampCode(valEnd)
      ensures fresh(timeSteps) && fresh(analogSteps)
    {
      this.board := board;
      this.channel := channel;
      this.totalTime := totalTime;
      var qs := RampCode(valStart);
      var qe := RampCode(valEnd);
      qStart := qs;
      qEnd := qe;
      outputSteps := StepList(qs, qe);
      length := |StepList(qs, qe)|;
      timeSteps := new real[|StepList(qs, qe)|];
      analogSteps := new real[|StepList(qs, qe)|];
    }

    /** `AnalogRamp(...)`: raises ValueError on a bad board, channel or voltage. */
    static method Create(board: int, channel: int, valStart: real, valEnd: real, totalTime: real)
      returns (r: Result<AnalogRamp>)
      ensures r.Err? <==> !(0 <= board <= 1) || !(0 <= channel <= 7) ||
                          !(-10.0 <= valStart <= 10.0) || !(-10.0 <= valEnd <= 10.0)
      ensures r.Err? ==> r.error == ValueError
      ensures r.Ok? ==> r.value.Valid() && fresh(r.value.timeSteps) && fresh(r.value.analogSteps)
      ensures r.Ok? ==> r.value.board == board && r.value.channel == channel && r.value.totalTime == totalTime
      ensures r.Ok? ==> r.value.qStart == RampCode(valStart) && r.value.qEnd == RampCode(valEnd)
    {
      if !(0 <= board <= 1) { return Err(ValueError); }
      if !(0 <= channel <= 7) { return Err(ValueError); }
      if !(-10.0 <= valStart <= 10.0) { return Err(ValueError); }
      if !(-10.0 <= valEnd <= 10.0) { return Err(ValueError); }
      var ramp := new AnalogRamp(board, channel, valStart, valEnd, totalTime);
      return Ok(ramp);
    }

    /** `_output`: one analog write per index, in index order. */
    method Output(log: EventLog)
      requires Valid()
      modifies log
      ensures log.calls == old(log.calls) + RampCalls(board, channel, timeSteps[..], analogSteps[..])
    {
      var index := 0;
      while index < length
        invariant 0 <= index <= length
        invariant log.calls == old(log.calls) + RampCalls(board, channel, timeSteps[..index], analogSteps[..index])
      {
        log.calls := log.calls + [SetAnalog(timeSteps[index], board, channel, analogSteps[index])];
        index := index + 1;
      }
      assert timeSteps[..index] == timeSteps[..] && analogSteps[..index] == analogSteps[..];
    }

    /** The loop of `linear` that fills both lists by index; it raises
        ZeroDivisionError on its first step when the slope is zero. */
    method FillLinear(tStart: real, slope: real) returns (ok: bool)
      requires Valid() && totalTime != 0.0 && slope == (qEnd - qStart) as real / totalTime
      modifies timeSteps, analogSteps
      ensures ok <==> qStart != qEnd
      ensures !ok ==> timeSteps[..] == old(timeSteps[..]) && analogSteps[..] == old(analogSteps[..])
      ensures ok ==> timeSteps[..] == StepTimes(tStart, qStart, qEnd, totalTime) &&
                     analogSteps[..] == StepValues(qStart, qEnd)
    {
      var index := 0;
      while index < length
        invariant 0 <= index <= length
        invariant index > 0 ==> slope != 0.0
        invariant timeSteps[index..] == old(timeSteps[index..]) && analogSteps[index..] == old(analogSteps[index..])
        invariant slope != 0.0 ==> forall k :: 0 <= k < index ==>
          timeSteps[k] == RampTime(tStart, qStart, qEnd, totalTime, outputSteps[k]) &&
          analogSteps[k] == RampValue(outputSteps[k])
      {
        if slope == 0.0 {
          return false;
        }
        timeSteps[index] := tStart + (outputSteps[index] - qStart) as real / slope;
        analogSteps[index] := 20.0 * outputSteps[index] as real / 65536.0;
        index := index + 1;
      }
      if slope == 0.0 {
        // q_start == q_end always leaves one step, so the loop has raised
        assert false;
      }
      assert timeSteps[..] == StepTimes(tStart, qStart, qEnd, totalTime);
      assert analogSteps[..] == StepValues(qStart, qEnd);
      return true;
    }

    /** `linear(t_start)`: fills both lists from the straight line, reverses
        them for a falling ramp and emits them; a zero duration or equal end
        codes raise ZeroDivisionError before anything is written. */
    method Linear(tStart: real, log: EventLog) returns (r: Result<real>)
      requires Valid()
      modifies timeSteps, analogSteps, log
      ensures totalTime == 0.0 || qStart == qEnd ==>
        r == Err(ZeroDivisionError) && log.calls == old(log.calls) &&
        timeSteps[..] == old(timeSteps[..]) && analogSteps[..] == old(analogSteps[..])
      ensures totalTime != 0.0 && qStart != qEnd ==>
        r == Ok(totalTime) &&
        timeSteps[..] == LinearTimes(tStart, qStart, qEnd, totalTime) &&
        analogSteps[..] == LinearValues(qStart, qEnd) &&
        log.calls == old(log.calls) + RampCalls(board, channel, LinearTimes(tStart, qStart, qEnd, totalTime), LinearValues(qStart, qEnd))
    {
      if totalTime == 0.0 {
        return Err(ZeroDivisionError);
      }
      var slope := (qEnd - qStart) as real / totalTime;
      var ok := FillLinear(tStart, slope);
      if !ok {
        return Err(ZeroDivisionError);
      }
      if qStart > qEnd + 1 {
        ReverseInPlace(timeSteps);
        ReverseInPlace(analogSteps);
      }
      Output(log);
      return Ok(totalTime);
    }
  }

  // ---------------------------------------------------------------------
  // AnalogOscillate

  /** `AnalogOscillate.__init__` checks: board, channel, offset, and offset ± amplitude in range. */
  function OscillateCheck(board: int, channel: int, amplitude: real, offset: real): (r: Result<()>)
    ensures r.Ok? <==> (0 <= board <= 1 && 0 <= channel <= 7 && -10.0 <= offset <= 10.0 &&
                        -10.0 <= offset + amplitude <= 10.0 && -10.0 <= offset - amplitude <= 10.0)
    ensures r.Err? ==> r.error == ValueError
  {
    if !(0 <= board <= 1) then Err(ValueError)
    else if !(0 <= channel <= 7) then Err(ValueError)
    else if !(-10.0 <= offset <= 10.0) then Err(ValueError)
    else if !(-10.0 <= offset + amplitude <= 10.0) || !(-10.0 <= offset - amplitude <= 10.0) then Err(ValueError)
    else Ok(())
  }

  /** `q_low` and `q_high`. */
  function QLow(amplitude: real): int { Trunc((-amplitude / 20.0) * 65536.0) }
  function QHigh(amplitude: real): int { Trunc((amplitude / 20.0) * 65536.0) }

  /** The oscillation's code list: up from 0 to below q_high, down from q_high
      to above q_low, then up from q_low to 0. */
  function OscillateSteps(qLow: int, qHigh: int): seq<int>
  {
    Range(0, qHigh) + RangeDown(qHigh, qLow) + Range(qLow, 0 + 1)
  }

  /** For a non-negative amplitude the codes are symmetric, and the step list
      is a triangle: it starts and ends at 0, climbs to q_high, falls to
      q_low, and every step moves the code by exactly one. */
  lemma OscillateTriangle(amplitude: real)
    requires amplitude >= 0.0
    ensures QLow(amplitude) == -QHigh(amplitude)
    ensures var s := OscillateSteps(QLow(amplitude), QHigh(amplitude));
      |s| == 4 * QHigh(amplitude) + 1 && s[0] == 0 && s[|s| - 1] == 0 &&
      (forall i :: 0 <= i < |s| ==> QLow(amplitude) <= s[i] <= QHigh(amplitude)) &&
      (forall i :: 0 <= i < |s| - 1 ==> s[i + 1] == s[i] + 1 || s[i + 1] == s[i] - 1)
  {
    var h := QHigh(amplitude);
    assert (-amplitude / 20.0) * 65536.0 == -((amplitude / 20.0) * 65536.0);
    assert QLow(amplitude) == -h;
    TriangleShape(h);
  }

  /** A negative amplitude passes the range check but gives no triangle:
      q_high is at most 0 and q_low at least 0, so the rising and falling runs
      are empty and the step list is empty, or the single code 0 when the
      amplitude is below one code. */
  lemma OscillateNegative(amplitude: real)
    requires amplitude < 0.0
    ensures QHigh(amplitude) <= 0 <= QLow(amplitude)
    ensures OscillateSteps(QLow(amplitude), QHigh(amplitude)) == if QLow(amplitude) >= 1 then [] else [0]
  {
    var lo, hi := QLow(amplitude), QHigh(amplitude);
    assert (-amplitude / 20.0) * 65536.0 > 0.0;
    assert (amplitude / 20.0) * 65536.0 < 0.0;
    assert Range(0, hi) == [] && RangeDown(hi, lo) == [];
    if lo < 1 {
      assert Range(lo, 0 + 1) == [0];
    }
  }

  /** Entry i of a triangle of height h: up from 0, down to -h, back up. */
  function TriangleCode(h: int, i: int): int
  {
    if i < h then i else if i < 3 * h then 2 * h - i else i - 4 * h
  }

  /** The step list for q_low = -h, q_high = h, entry by entry. */
  lemma TriangleAt(h: int)
    requires h >= 0
    ensures |OscillateSteps(-h, h)| == 4 * h + 1
    ensures forall i :: 0 <= i < |OscillateSteps(-h, h)| ==> OscillateSteps(-h, h)[i] == TriangleCode(h, i)
  {
    var a, b, c := Range(0, h), RangeDown(h, -h), Range(-h, 0 + 1);
    var s := OscillateSteps(-h, h);
    assert s == a + b + c;
    assert |a| == h && |b| == 2 * h && |c| == h + 1;
    forall i | 0 <= i < |s|
      ensures s[i] == TriangleCode(h, i)
    {
      ConcatAt(a, b, c, i);
    }
  }

  lemma ConcatAt(a: seq<int>, b: seq<int>, c: seq<int>, i: int)
    requires 0 <= i < |a| + |b| + |c|
    ensures (a + b + c)[i] == if i < |a| then a[i] else if i < |a| + |b| then b[i - |a|] else c[i - |a| - |b|]
  {
  }

  lemma TriangleShape(h: int)
    requires h >= 0
    ensures var s := OscillateSteps(-h, h);
      |s| == 4 * h + 1 && s[0] == 0 && s[|s| - 1] == 0 &&
      (forall i :: 0 <= i < |s| ==> -h <= s[i] <= h) &&
      (forall i :: 0 <= i < |s| - 1 ==> s[i + 1] == s[i] + 1 || s[i + 1] == s[i] - 1)
  {
    TriangleAt(h);
  }

  /** The settle tail of `sine` as written: two zero writes at total_time + 1 µs
      and total_time + 2 µs, without t_start; returns total_time + 2 µs. */
  function SineSettleAsWritten(board: int, channel: int, tStart: real, totalTime: real): (r: Outcome)
    ensures r.elapsed == Ok(totalTime + 2.0 * us) && |r.calls| == 2
    ensures forall c :: c in r.calls ==> c.SetAnalog? && c.board == board && c.channel == channel && c.value == 0.0
    ensures r.calls[0].Time() == totalTime + us && r.calls[1].Time() == totalTime + 2.0 * us
  {
    Outcome([SetAnalog(totalTime + 1.0 * us, board, channel, 0.0), SetAnalog(totalTime + 2.0 * us, board, channel, 0.0)],
            Ok(totalTime + 2.0 * us))
  }

  /** The settle writes as written ignore t_start: a sine started at 5 s that
      lasts 1 s is zeroed at 1.000001 s, four seconds before it begins. */
  lemma SineSettleBeforeStart()
    ensures SineSettleAsWritten(0, 0, 5.0, 1.0).calls[0].Time() < 5.0
  {
  }

  /** The settle tail as intended: both zero writes follow the oscillation
      window [t_start, t_start + total_time], one and two microseconds after it,
      and the returned elapsed time reaches the last of them. */
  function SineSettle(board: int, channel: int, tStart: real, totalTime: real): (r: Outcome)
    ensures r.elapsed == Ok(totalTime + 2.0 * us) && |r.calls| == 2
    ensures forall c :: c in r.calls ==> c.SetAnalog? && c.board == board && c.channel == channel && c.value == 0.0
    ensures forall c :: c in r.calls ==> c.Time() > tStart + totalTime
    ensures r.calls[0].Time() < r.calls[1].Time() == tStart + r.elapsed.value
  {
    Outcome([SetAnalog(tStart + totalTime + 1.0 * us, board, channel, 0.0),
             SetAnalog(tStart + totalTime + 2.0 * us, board, channel, 0.0)],
            Ok(totalTime + 2.0 * us))
  }
}
