/** What a scheduled action does: the calls it makes to the output layer
    (`ew_link.set_digital_state` / `set_analog_state`), in call order, and the
    elapsed time it reports (or the exception it raises). */
module Events {
  import opened Base

  /** Seconds, as in Base/constants.py. */
  const ms: real := 0.001
  const us: real := 0.000001

  /** One call into the output layer, with the arguments it was given. */
  datatype Call =
    | SetDigital(time: real, connector: int, mask: int, enable: int, state: int)
    | SetAnalog(time: real, board: int, channel: int, value: real)
  {
    function Time(): real
    {
      match this
      case SetDigital(t, _, _, _, _) => t
      case SetAnalog(t, _, _, _) => t
    }
  }

  /** The calls an action made, then either its elapsed time or the exception
      that ended it (calls made before the exception stay made). */
  datatype Outcome = Outcome(calls: seq<Call>, elapsed: Result<real>)

  /** A `(time) -> elapsed time` callable. */
  type Action = real -> Outcome

  /** Every call is time-stamped in [lo, hi). */
  predicate Within(calls: seq<Call>, lo: real, hi: real)
  {
    forall i :: 0 <= i < |calls| ==> lo <= calls[i].time < hi
  }

  /** The calls of several outcomes, one after the other. */
  function Flatten(calls: seq<seq<Call>>): (r: seq<Call>)
    ensures calls == [] ==> r == []
  {
    if calls == [] then [] else Flatten(calls[..|calls| - 1]) + calls[|calls| - 1]
  }

  /** The log that every emitted call is appended to, in call order. */
  class EventLog {
    var calls: seq<Call>

    constructor ()
      ensures calls == []
    {
      calls := [];
    }
  }
}
