/** The timeline cursor of Base/timing.py. A `Sequence` holds three times:
    the start of the stage, the cursor, and the permanent start that local
    timing restores. Actions are `(time) -> elapsed` callables; scheduling
    one places it on the timeline and moves the cursor by what it reports. */
module Timing {
  import opened Base
  import opened Events

  /** `null_func`: does nothing and takes no time. */
  function NullFunc(time: real): Outcome
  {
    Outcome([], Ok(0.0))
  }

  /** The three time fields of a stage. */
  datatype Times = Times(start: real, current: real, permanent: real)

  /** The argument of `rel`: one callable or a list of callables. */
  datatype Scheduled = Single(act: Action) | Batch(acts: seq<Action>)

  /** One `(delay_time, seq)` entry of the list given to `rel_multiple`. */
  datatype Delayed = Delayed(delay: real, act: Action)

  /** A statement of a stage body. */
  datatype Instr =
    | DoAbs(offset: real, act: Action)
    | DoRel(delay: real, sched: Scheduled)
    | DoRelMultiple(steps: seq<Delayed>)
    | DoStartLocal(localDelay: real)
    | DoEndLocal

  /** Where the cursor is, what was emitted and `step_time` (or the exception), part way through a loop. */
  datatype Run = Run(cursor: real, calls: seq<Call>, result: Result<real>)

  /** The new time fields, the calls emitted and the return value (or the exception). */
  datatype Step = Step(times: Times, calls: seq<Call>, result: Result<real>)

  /** The common ending of abs, rel and rel_multiple: the cursor moves on by
      the returned `step_time` unless an exception left it where the call was made. */
  function Finish(c: Times, r: Run): Step
  {
    Step(c.(current := if r.result.Ok? then r.cursor + r.result.value else r.cursor), r.calls, r.result)
  }

  /** `abs(t_step, seq)`. */
  function AbsStep(c: Times, tStep: real, act: Action): Step
  {
    var at := tStep + c.start;
    var o := act(at);
    Finish(c, Run(at, o.calls, o.elapsed))
  }

  /** The loop of `rel` over a list: every element at the same time `at`;
      `step_time` is the last one's. */
  function BatchRun(at: real, acts: seq<Action>): (r: Run)
    ensures r.cursor == at
    decreases |acts|
  {
    if acts == [] then Run(at, [], Ok(0.0))
    else
      var prev := BatchRun(at, acts[..|acts| - 1]);
      if prev.result.Err? then prev
      else
        var o := acts[|acts| - 1](at);
        Run(at, prev.calls + o.calls, o.elapsed)
  }

  /** `rel(delay_time, seq)`. */
  function RelStep(c: Times, delay: real, s: Scheduled): Step
  {
    var at := c.current + delay;
    match s
    case Single(act) =>
      var o := act(at);
      Finish(c, Run(at, o.calls, o.elapsed))
    case Batch(acts) =>
      Finish(c, BatchRun(at, acts))
  }

  /** The loop of `rel_multiple`: each delay is added to the cursor before its callable runs. */
  function MultipleRun(cursor: real, steps: seq<Delayed>): Run
    decreases |steps|
  {
    if steps == [] then Run(cursor, [], Ok(0.0))
    else
      var prev := MultipleRun(cursor, steps[..|steps| - 1]);
      if prev.result.Err? then prev
      else
        var last := steps[|steps| - 1];
        var at := prev.cursor + last.delay;
        var o := last.act(at);
        Run(at, prev.calls + o.calls, o.elapsed)
  }

  /** `rel_multiple(step_list)`. */
  function RelMultipleStep(c: Times, steps: seq<Delayed>): Step
  {
    Finish(c, MultipleRun(c.current, steps))
  }

  /** `start_local_timing(delay_time)`. */
  function StartLocal(c: Times, delay: real): Times
  {
    c.(current := c.current + delay, start := c.current + delay)
  }

  /** `end_local_timing()`. */
  function EndLocal(c: Times): Times
  {
    c.(start := c.permanent)
  }

  function InstrStep(c: Times, i: Instr): Step
  {
    match i
    case DoAbs(t, act) => AbsStep(c, t, act)
    case DoRel(d, s) => RelStep(c, d, s)
    case DoRelMultiple(steps) => RelMultipleStep(c, steps)
    case DoStartLocal(d) => Step(StartLocal(c, d), [], Ok(0.0))
    case DoEndLocal => Step(EndLocal(c), [], Ok(0.0))
  }

  /** A stage body run statement by statement; an exception ends it. */
  function BodyStep(c: Times, body: seq<Instr>): Step
    decreases |body|
  {
    if body == [] then Step(c, [], Ok(0.0))
    else
      var prev := BodyStep(c, body[..|body| - 1]);
      if prev.result.Err? then prev
      else
        var s := InstrStep(prev.times, body[|body| - 1]);
        Step(s.times, prev.calls + s.calls, s.result)
  }

  /** A stage method wrapped by `_update_time`, called with time t. */
  function Stage(body: seq<Instr>, t: real): Outcome
  {
    var s := BodyStep(Times(t, t, t), body);
    Outcome(s.calls, if s.result.Ok? then Ok(s.times.current - s.times.start) else s.result)
  }

  /** A wrapped stage method as a callable that other stages can schedule. */
  function StageAction(body: seq<Instr>): Action
  {
    t => Stage(body, t)
  }

  /** The sum of the delays of a `rel_multiple` list. */
  function DelaySum(steps: seq<Delayed>): real
  {
    if steps == [] then 0.0 else DelaySum(steps[..|steps| - 1]) + steps[|steps| - 1].delay
  }

  // ---------------------------------------------------------------------
  // Properties of the scheduling operations

  /** abs, rel and rel_multiple never change `start_time` or `start_permanent`
      (an action is a value and cannot reach the stage's fields). */
  lemma SchedulingKeepsStart(c: Times, t: real, act: Action, s: Scheduled, steps: seq<Delayed>)
    ensures AbsStep(c, t, act).times.start == c.start && AbsStep(c, t, act).times.permanent == c.permanent
    ensures RelStep(c, t, s).times.start == c.start && RelStep(c, t, s).times.permanent == c.permanent
    ensures RelMultipleStep(c, steps).times.start == c.start
    ensures RelMultipleStep(c, steps).times.permanent == c.permanent
  {
  }

  /** `abs` runs the callable at `start_time + t_step`, moves the cursor past
      its elapsed time and returns it. */
  lemma AbsPlacesAtStart(c: Times, t: real, act: Action)
    ensures AbsStep(c, t, act).calls == act(c.start + t).calls
    ensures AbsStep(c, t, act).result == act(c.start + t).elapsed
    ensures act(c.start + t).elapsed.Ok? ==>
      AbsStep(c, t, act).times.current == c.start + t + act(c.start + t).elapsed.value
    ensures act(c.start + t).elapsed.Err? ==> AbsStep(c, t, act).times.current == c.start + t
  {
  }

  /** `abs` of a callable that succeeds at `start_time + t`: the whole new step. */
  lemma AbsOfOutcome(c: Times, t: real, act: Action, calls: seq<Call>, e: real)
    requires act(c.start + t) == Outcome(calls, Ok(e))
    ensures AbsStep(c, t, act) == Step(c.(current := c.start + t + e), calls, Ok(e))
  {
    assert t + c.start == c.start + t;
  }

  /** `abs(t)` with the default callable extends the stage: nothing is emitted,
      0 is returned, and the cursor is exactly at `start_time + t`. */
  lemma AbsNullExtends(c: Times, t: real)
    ensures AbsStep(c, t, NullFunc) == Step(c.(current := c.start + t), [], Ok(0.0))
  {
  }

  /** An action scheduled early by its own duration finishes at the stage start. */
  lemma AbsNegativeOffsetCancels(c: Times, d: real, act: Action)
    requires act(c.start - d).elapsed == Ok(d)
    ensures AbsStep(c, -d, act).times.current == c.start
  {
  }

  /** `rel` with one callable: it runs at the cursor plus the delay and the
      cursor moves on by its elapsed time. */
  lemma RelSinglePlacesAtCursor(c: Times, d: real, act: Action)
    ensures RelStep(c, d, Single(act)).calls == act(c.current + d).calls
    ensures act(c.current + d).elapsed.Ok? ==>
      RelStep(c, d, Single(act)).times.current == c.current + d + act(c.current + d).elapsed.value
  {
  }

  /** A batch that stopped on an exception stays stopped when more callables follow. */
  lemma {:induction false} BatchRunStops(at: real, acts: seq<Action>, k: nat)
    requires k <= |acts| && BatchRun(at, acts[..k]).result.Err?
    ensures BatchRun(at, acts) == BatchRun(at, acts[..k])
    decreases |acts| - k
  {
    if k < |acts| {
      assert acts[..|acts| - 1][..k] == acts[..k];
      BatchRunStops(at, acts[..|acts| - 1], k);
    } else {
      assert acts[..k] == acts;
    }
  }

  /** When no callable of a batch raises, every one of them is called at the
      same time in list order, and `step_time` is the last one's elapsed time
      (0 for an empty list). */
  lemma {:induction false} BatchRunAllSucceed(at: real, acts: seq<Action>)
    requires forall k :: 0 <= k < |acts| ==> acts[k](at).elapsed.Ok?
    ensures BatchRun(at, acts).calls == Flatten(seq(|acts|, k requires 0 <= k < |acts| => acts[k](at).calls))
    ensures BatchRun(at, acts).result == if acts == [] then Ok(0.0) else acts[|acts| - 1](at).elapsed
    ensures BatchRun(at, acts).cursor == at
    decreases |acts|
  {
    if acts != [] {
      var init := acts[..|acts| - 1];
      BatchRunAllSucceed(at, init);
      var all := seq(|acts|, k requires 0 <= k < |acts| => acts[k](at).calls);
      assert all[..|all| - 1] == seq(|init|, k requires 0 <= k < |init| => init[k](at).calls);
    }
  }

  /** The first callable of a batch that raises ends it: its exception is the
      result, and the calls are those of the callables up to and including it. */
  lemma BatchRunFirstFailure(at: real, acts: seq<Action>, k: nat)
    requires k < |acts| && acts[k](at).elapsed.Err?
    requires forall j :: 0 <= j < k ==> acts[j](at).elapsed.Ok?
    ensures BatchRun(at, acts).result == acts[k](at).elapsed
    ensures BatchRun(at, acts).calls == Flatten(seq(k + 1, j requires 0 <= j <= k => acts[j](at).calls))
  {
    var pre := acts[..k];
    BatchRunAllSucceed(at, pre);
    assert acts[..k + 1][..k] == pre;
    var s := seq(k + 1, j requires 0 <= j <= k => acts[j](at).calls);
    assert s[..k] == seq(|pre|, j requires 0 <= j < |pre| => pre[j](at).calls);
    BatchRunStops(at, acts, k + 1);
  }

  /** `rel(delay, list)` advances the cursor by the delay and then by the last
      callable's elapsed time only. */
  lemma RelBatchAdvancesByLast(c: Times, d: real, acts: seq<Action>)
    requires acts != [] && forall k :: 0 <= k < |acts| ==> acts[k](c.current + d).elapsed.Ok?
    ensures RelStep(c, d, Batch(acts)).times.current
         == c.current + d + acts[|acts| - 1](c.current + d).elapsed.value
    ensures RelStep(c, d, Batch(acts)).result == acts[|acts| - 1](c.current + d).elapsed
  {
    BatchRunAllSucceed(c.current + d, acts);
  }

  /** `rel(d, [])` advances by d only and returns 0. */
  lemma RelEmptyBatch(c: Times, d: real)
    ensures RelStep(c, d, Batch([])) == Step(c.(current := c.current + d), [], Ok(0.0))
  {
  }

  /** A rel_multiple run that stopped on an exception stays stopped. */
  lemma {:induction false} MultipleRunStops(cursor: real, steps: seq<Delayed>, k: nat)
    requires k <= |steps| && MultipleRun(cursor, steps[..k]).result.Err?
    ensures MultipleRun(cursor, steps) == MultipleRun(cursor, steps[..k])
    decreases |steps| - k
  {
    if k < |steps| {
      assert steps[..|steps| - 1][..k] == steps[..k];
      MultipleRunStops(cursor, steps[..|steps| - 1], k);
    } else {
      assert steps[..k] == steps;
    }
  }

  /** The time at which step k of `rel_multiple` runs: the entry cursor plus the first k+1 delays. */
  function StepAt(cursor: real, steps: seq<Delayed>, k: nat): real
    requires k < |steps|
  {
    cursor + DelaySum(steps[..k]) + steps[k].delay
  }

  lemma StepAtPrefix(cursor: real, steps: seq<Delayed>, m: nat, k: nat)
    requires k < m <= |steps|
    ensures StepAt(cursor, steps[..m], k) == StepAt(cursor, steps, k)
  {
    assert steps[..m][..k] == steps[..k];
  }

  /** The calls that each step of a `rel_multiple` list makes at its own time. */
  function StepCalls(cursor: real, steps: seq<Delayed>): (r: seq<seq<Call>>)
    ensures |r| == |steps|
    ensures forall k :: 0 <= k < |steps| ==> r[k] == steps[k].act(StepAt(cursor, steps, k)).calls
  {
    seq(|steps|, k requires 0 <= k < |steps| => steps[k].act(StepAt(cursor, steps, k)).calls)
  }

  /** When no step raises, step k of `rel_multiple` runs at the entry cursor
      plus the first k+1 delays, the cursor ends at the entry cursor plus all
      delays, and `step_time` is the last step's elapsed time (0 for an empty list). */
  lemma MultipleRunAllSucceed(cursor: real, steps: seq<Delayed>)
    requires forall k {:trigger StepAt(cursor, steps, k)} :: 0 <= k < |steps| ==> steps[k].act(StepAt(cursor, steps, k)).elapsed.Ok?
    ensures MultipleRun(cursor, steps).cursor == cursor + DelaySum(steps)
    ensures MultipleRun(cursor, steps).calls == Flatten(StepCalls(cursor, steps))
    ensures steps == [] ==> MultipleRun(cursor, steps).result == Ok(0.0)
    ensures steps != [] ==> MultipleRun(cursor, steps).result
                            == steps[|steps| - 1].act(StepAt(cursor, steps, |steps| - 1)).elapsed
  {
    MultipleRunCursor(cursor, steps);
    MultipleRunCalls(cursor, steps);
  }

  lemma {:induction false} MultipleRunCursor(cursor: real, steps: seq<Delayed>)
    requires forall k {:trigger StepAt(cursor, steps, k)} :: 0 <= k < |steps| ==> steps[k].act(StepAt(cursor, steps, k)).elapsed.Ok?
    ensures MultipleRun(cursor, steps).cursor == cursor + DelaySum(steps)
    ensures MultipleRun(cursor, steps).result.Ok?
    ensures steps == [] ==> MultipleRun(cursor, steps).result == Ok(0.0)
    ensures steps != [] ==> MultipleRun(cursor, steps).result
                            == steps[|steps| - 1].act(StepAt(cursor, steps, |steps| - 1)).elapsed
    decreases |steps|
  {
    if steps != [] {
      var n := |steps|;
      StepsPrefixSucceed(cursor, steps, n - 1);
      MultipleRunCursor(cursor, steps[..n - 1]);
      MultipleRunLast(cursor, steps);
    }
  }

  lemma {:induction false} MultipleRunCalls(cursor: real, steps: seq<Delayed>)
    requires forall k {:trigger StepAt(cursor, steps, k)} :: 0 <= k < |steps| ==> steps[k].act(StepAt(cursor, steps, k)).elapsed.Ok?
    ensures MultipleRun(cursor, steps).calls == Flatten(StepCalls(cursor, steps))
    decreases |steps|
  {
    if steps != [] {
      var n := |steps|;
      var init := steps[..n - 1];
      StepsPrefixSucceed(cursor, steps, n - 1);
      MultipleRunCalls(cursor, init);
      MultipleRunCursor(cursor, init);
      FlattenStepCallsSnoc(cursor, steps);
      MultipleRunLast(cursor, steps);
    }
  }

  /** A `rel_multiple` list whose prefix ran without raising and moved the
      cursor by its delays: the last step runs at its own time, and its calls
      follow those of the prefix. */
  lemma MultipleRunLast(cursor: real, steps: seq<Delayed>)
    requires steps != []
    requires MultipleRun(cursor, steps[..|steps| - 1]).result.Ok?
    requires MultipleRun(cursor, steps[..|steps| - 1]).cursor == cursor + DelaySum(steps[..|steps| - 1])
    ensures MultipleRun(cursor, steps)
         == var at := StepAt(cursor, steps, |steps| - 1);
            var o := steps[|steps| - 1].act(at);
            Run(at, MultipleRun(cursor, steps[..|steps| - 1]).calls + o.calls, o.elapsed)
  {
    var prev := MultipleRun(cursor, steps[..|steps| - 1]);
    var last := steps[|steps| - 1];
    LastStepTime(cursor, steps);
    var at := StepAt(cursor, steps, |steps| - 1);
    assert prev.cursor + last.delay == at;
    var o := last.act(at);
    assert MultipleRun(cursor, steps) == Run(at, prev.calls + o.calls, o.elapsed);
  }

  lemma LastStepTime(cursor: real, steps: seq<Delayed>)
    requires steps != []
    requires MultipleRun(cursor, steps[..|steps| - 1]).cursor == cursor + DelaySum(steps[..|steps| - 1])
    ensures MultipleRun(cursor, steps[..|steps| - 1]).cursor + steps[|steps| - 1].delay == StepAt(cursor, steps, |steps| - 1)
  {
  }

  lemma FlattenStepCallsSnoc(cursor: real, steps: seq<Delayed>)
    requires steps != []
    ensures Flatten(StepCalls(cursor, steps))
         == Flatten(StepCalls(cursor, steps[..|steps| - 1])) + steps[|steps| - 1].act(StepAt(cursor, steps, |steps| - 1)).calls
  {
    var n := |steps|;
    StepCallsPrefix(cursor, steps, n - 1);
    var all := StepCalls(cursor, steps);
    assert Flatten(all) == Flatten(all[..n - 1]) + all[n - 1];
  }

  lemma StepsPrefixSucceed(cursor: real, steps: seq<Delayed>, m: nat)
    requires m <= |steps|
    requires forall k {:trigger StepAt(cursor, steps, k)} :: 0 <= k < |steps| ==> steps[k].act(StepAt(cursor, steps, k)).elapsed.Ok?
    ensures forall k {:trigger StepAt(cursor, steps[..m], k)} :: 0 <= k < m ==> steps[..m][k].act(StepAt(cursor, steps[..m], k)).elapsed.Ok?
  {
    forall k | 0 <= k < m
      ensures steps[..m][k].act(StepAt(cursor, steps[..m], k)).elapsed.Ok?
    {
      StepAtPrefix(cursor, steps, m, k);
    }
  }

  lemma StepCallsPrefix(cursor: real, steps: seq<Delayed>, m: nat)
    requires m <= |steps|
    ensures StepCalls(cursor, steps)[..m] == StepCalls(cursor, steps[..m])
  {
    forall k | 0 <= k < m
      ensures StepCalls(cursor, steps)[..m][k] == StepCalls(cursor, steps[..m])[k]
    {
      StepAtPrefix(cursor, steps, m, k);
    }
  }

  /** `rel_multiple` with all steps succeeding ends at the entry cursor plus
      all delays plus the last step's elapsed time; intermediate elapsed times
      are ignored. */
  lemma RelMultipleAdvance(c: Times, steps: seq<Delayed>)
    requires steps != []
    requires forall k {:trigger StepAt(c.current, steps, k)} :: 0 <= k < |steps| ==> steps[k].act(StepAt(c.current, steps, k)).elapsed.Ok?
    ensures RelMultipleStep(c, steps).times.current
         == c.current + DelaySum(steps) + steps[|steps| - 1].act(StepAt(c.current, steps, |steps| - 1)).elapsed.value
  {
    MultipleRunAllSucceed(c.current, steps);
  }

  /** `rel_multiple([])` emits nothing, returns 0 and leaves the cursor alone. */
  lemma RelMultipleEmpty(c: Times)
    ensures RelMultipleStep(c, []) == Step(c, [], Ok(0.0))
  {
  }

  /** A local timing block: `start_local_timing(d)` moves the cursor by d and
      makes it the start, so `abs(t)` inside the block runs at the old cursor
      plus d plus t; `end_local_timing()` restores the permanent start and
      leaves the cursor where it is. */
  lemma LocalTimingBlock(c: Times, d: real, t: real, act: Action)
    ensures StartLocal(c, d).start == c.current + d && StartLocal(c, d).current == c.current + d
    ensures StartLocal(c, d).permanent == c.permanent
    ensures AbsStep(StartLocal(c, d), t, act).calls == act(c.current + d + t).calls
    ensures EndLocal(c).start == c.permanent && EndLocal(c).current == c.current
  {
  }

  /** A stage wrapped by `_update_time` starts with all three fields at t and
      returns `current_time - start_time` at the end of its body. */
  lemma StageStartsAtT(body: seq<Instr>, t: real)
    ensures Stage(body, t).calls == BodyStep(Times(t, t, t), body).calls
    ensures BodyStep(Times(t, t, t), body).result.Ok? ==>
      Stage(body, t).elapsed == Ok(BodyStep(Times(t, t, t), body).times.current - BodyStep(Times(t, t, t), body).times.start)
  {
  }

  /** A body that ends with its start where it began (every local timing
      block closed) reports the distance its cursor travelled; so a parent
      that schedules it with `abs` puts its own cursor where the child's ended. */
  lemma NestedStageCursor(c: Times, t: real, body: seq<Instr>)
    requires BodyStep(Times(c.start + t, c.start + t, c.start + t), body).result.Ok?
    requires BodyStep(Times(c.start + t, c.start + t, c.start + t), body).times.start == c.start + t
    ensures AbsStep(c, t, StageAction(body)).times.current
         == BodyStep(Times(c.start + t, c.start + t, c.start + t), body).times.current
    ensures AbsStep(c, t, StageAction(body)).calls
         == BodyStep(Times(c.start + t, c.start + t, c.start + t), body).calls
  {
  }

  /** A body that stopped on an exception stays stopped. */
  lemma {:induction false} BodyStepStops(c: Times, body: seq<Instr>, k: nat)
    requires k <= |body| && BodyStep(c, body[..k]).result.Err?
    ensures BodyStep(c, body) == BodyStep(c, body[..k])
    decreases |body| - k
  {
    if k < |body| {
      assert body[..|body| - 1][..k] == body[..k];
      BodyStepStops(c, body[..|body| - 1], k);
    } else {
      assert body[..k] == body;
    }
  }

  /** One more callable of a `rel` list that has not raised. */
  lemma BatchRunSnoc(at: real, acts: seq<Action>, i: nat)
    requires i < |acts| && BatchRun(at, acts[..i]).result.Ok?
    ensures BatchRun(at, acts[..i + 1])
         == var o := acts[i](at); Run(at, BatchRun(at, acts[..i]).calls + o.calls, o.elapsed)
  {
    assert acts[..i + 1][..i] == acts[..i];
  }

  /** One more entry of a `rel_multiple` list that has not raised. */
  lemma MultipleRunSnoc(cursor: real, steps: seq<Delayed>, i: nat)
    requires i < |steps| && MultipleRun(cursor, steps[..i]).result.Ok?
    ensures MultipleRun(cursor, steps[..i + 1])
         == var prev := MultipleRun(cursor, steps[..i]);
            var at := prev.cursor + steps[i].delay;
            var o := steps[i].act(at);
            Run(at, prev.calls + o.calls, o.elapsed)
  {
    assert steps[..i + 1][..i] == steps[..i];
  }

  /** One more statement of a body that has not raised. */
  lemma BodyStepSnoc(c: Times, body: seq<Instr>, i: nat)
    requires i < |body| && BodyStep(c, body[..i]).result.Ok?
    ensures BodyStep(c, body[..i + 1])
         == var s := InstrStep(BodyStep(c, body[..i]).times, body[i]);
            Step(s.times, BodyStep(c, body[..i]).calls + s.calls, s.result)
  {
    assert body[..i + 1][..i] == body[..i];
  }

  // ---------------------------------------------------------------------
  // Sequence: the stage object whose methods update the three fields

  class Sequence {
    var startTime: real
    var currentTime: real
    var startPermanent: real

    function Fields(): Times
      reads this
    {
      Times(startTime, currentTime, startPermanent)
    }

    /** The new fields and the log are those of step `s` taken from a log `before`. */
    predicate Took(s: Step, before: seq<Call>, log: EventLog)
      reads this, log
    {
      Fields() == s.times && log.calls == before + s.calls
    }

    constructor ()
      ensures Fields() == Times(0.0, 0.0, 0.0)
    {
      startTime, currentTime, startPermanent := 0.0, 0.0, 0.0;
    }

    method Abs(tStep: real, act: Action, log: EventLog) returns (r: Result<real>)
      modifies this, log
      ensures Took(AbsStep(old(Fields()), tStep, act), old(log.calls), log)
      ensures r == AbsStep(old(Fields()), tStep, act).result
    {
      currentTime := tStep + startTime;
      var o := act(currentTime);
      log.calls := log.calls + o.calls;
      if o.elapsed.Err? {
        return Err(o.elapsed.error);
      }
      var stepTime := o.elapsed.value;
      currentTime := currentTime + stepTime;
      return Ok(stepTime);
    }

    method Rel(delayTime: real, s: Scheduled, log: EventLog) returns (r: Result<real>)
      modifies this, log
      ensures Took(RelStep(old(Fields()), delayTime, s), old(log.calls), log)
      ensures r == RelStep(old(Fields()), delayTime, s).result
    {
      currentTime := currentTime + delayTime;
      var stepTime: real := 0.0;
      match s {
        case Single(act) =>
          var o := act(currentTime);
          log.calls := log.calls + o.calls;
          if o.elapsed.Err? {
            return Err(o.elapsed.error);
          }
          stepTime := o.elapsed.value;
        case Batch(acts) =>
          var res := RunBatch(acts, log);
          if res.Err? {
            return res;
          }
          stepTime := res.value;
      }
      currentTime := currentTime + stepTime;
      return Ok(stepTime);
    }

    /** The loop of `rel` over a list: every callable runs at the cursor. */
    method RunBatch(acts: seq<Action>, log: EventLog) returns (r: Result<real>)
      modifies log
      ensures log.calls == old(log.calls) + BatchRun(currentTime, acts).calls
      ensures r == BatchRun(currentTime, acts).result
    {
      var stepTime: real := 0.0;
      ghost var runCalls: seq<Call> := [];
      var i := 0;
      while i < |acts|
        invariant 0 <= i <= |acts|
        invariant BatchRun(currentTime, acts[..i]) == Run(currentTime, runCalls, Ok(stepTime))
        invariant log.calls == old(log.calls) + runCalls
      {
        var o := acts[i](currentTime);
        BatchRunSnoc(currentTime, acts, i);
        AppendAssoc(old(log.calls), runCalls, o.calls);
        log.calls := log.calls + o.calls;
        runCalls := runCalls + o.calls;
        if o.elapsed.Err? {
          BatchRunStops(currentTime, acts, i + 1);
          return Err(o.elapsed.error);
        }
        stepTime := o.elapsed.value;
        i := i + 1;
      }
      assert acts[..i] == acts;
      return Ok(stepTime);
    }

    method RelMultiple(stepList: seq<Delayed>, log: EventLog) returns (r: Result<real>)
      modifies this, log
      ensures Took(RelMultipleStep(old(Fields()), stepList), old(log.calls), log)
      ensures r == RelMultipleStep(old(Fields()), stepList).result
    {
      var res := RunSteps(stepList, log);
      if res.Err? {
        return res;
      }
      var stepTime := res.value;
      currentTime := currentTime + stepTime;
      return Ok(stepTime);
    }

    /** The loop of `rel_multiple`: each delay moves the cursor before its callable runs. */
    method RunSteps(stepList: seq<Delayed>, log: EventLog) returns (r: Result<real>)
      modifies this, log
      ensures startTime == old(startTime) && startPermanent == old(startPermanent)
      ensures currentTime == MultipleRun(old(currentTime), stepList).cursor
      ensures log.calls == old(log.calls) + MultipleRun(old(currentTime), stepList).calls
      ensures r == MultipleRun(old(currentTime), stepList).result
    {
      var stepTime: real := 0.0;
      ghost var c0 := currentTime;
      ghost var runCalls: seq<Call> := [];
      var i := 0;
      while i < |stepList|
        invariant 0 <= i <= |stepList|
        invariant startTime == old(startTime) && startPermanent == old(startPermanent)
        invariant MultipleRun(c0, stepList[..i]) == Run(currentTime, runCalls, Ok(stepTime))
        invariant log.calls == old(log.calls) + runCalls
      {
        MultipleRunSnoc(c0, stepList, i);
        currentTime := currentTime + stepList[i].delay;
        var o := stepList[i].act(currentTime);
        AppendAssoc(old(log.calls), runCalls, o.calls);
        log.calls := log.calls + o.calls;
        runCalls := runCalls + o.calls;
        if o.elapsed.Err? {
          MultipleRunStops(c0, stepList, i + 1);
          return Err(o.elapsed.error);
        }
        stepTime := o.elapsed.value;
        i := i + 1;
      }
      assert stepList[..i] == stepList;
      return Ok(stepTime);
    }

    method StartLocalTiming(delayTime: real)
      modifies this
      ensures Fields() == StartLocal(old(Fields()), delayTime)
    {
      currentTime := currentTime + delayTime;
      startTime := currentTime;
    }

    method EndLocalTiming()
      modifies this
      ensures Fields() == EndLocal(old(Fields()))
    {
      startTime := startPermanent;
    }

    /** One statement of a stage body, by the method that runs it. */
    method Exec(i: Instr, log: EventLog) returns (r: Result<real>)
      modifies this, log
      ensures Took(InstrStep(old(Fields()), i), old(log.calls), log)
      ensures r == InstrStep(old(Fields()), i).result
    {
      match i {
        case DoAbs(t, act) => r := Abs(t, act, log);
        case DoRel(d, s) => r := Rel(d, s, log);
        case DoRelMultiple(steps) => r := RelMultiple(steps, log);
        case DoStartLocal(d) => StartLocalTiming(d); r := Ok(0.0);
        case DoEndLocal => EndLocalTiming(); r := Ok(0.0);
      }
    }

    /** The next statement of a body that has not raised. */
    method ExecNext(ghost c0: Times, body: seq<Instr>, i: nat, ghost before: seq<Call>, log: EventLog) returns (r: Result<real>)
      requires i < |body| && BodyStep(c0, body[..i]).result.Ok?
      requires Took(BodyStep(c0, body[..i]), before, log)
      modifies this, log
      ensures Took(BodyStep(c0, body[..i + 1]), before, log)
      ensures r == BodyStep(c0, body[..i + 1]).result
    {
      r := Exec(body[i], log);
      BodyStepSnoc(c0, body, i);
      AppendAssoc(before, BodyStep(c0, body[..i]).calls, InstrStep(BodyStep(c0, body[..i]).times, body[i]).calls);
    }

    /** `_update_time`: the wrapped stage method called with time t. */
    method Wrapped(t: real, body: seq<Instr>, log: EventLog) returns (r: Result<real>)
      modifies this, log
      ensures Took(BodyStep(Times(t, t, t), body), old(log.calls), log)
      ensures log.calls == old(log.calls) + Stage(body, t).calls
      ensures r == Stage(body, t).elapsed
    {
      startTime := t;
      currentTime := t;
      startPermanent := t;
      ghost var c0 := Times(t, t, t);
      ghost var before := log.calls;
      var i := 0;
      while i < |body|
        invariant 0 <= i <= |body|
        invariant BodyStep(c0, body[..i]).result.Ok?
        invariant Took(BodyStep(c0, body[..i]), before, log)
      {
        var res := ExecNext(c0, body, i, before, log);
        if res.Err? {
          BodyStepStops(c0, body, i + 1);
          return res;
        }
        i := i + 1;
      }
      assert body[..i] == body;
      return Ok(currentTime - startTime);
    }
  }
}
