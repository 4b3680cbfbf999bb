# Entangleware sequencer core in Dafny

This project models the part of the Entangleware experiment-control code that turns nested
experiment stages into one stream of time-stamped hardware records. It also models how that
stream is encoded for the FPGA sequencer and how it is framed on the TCP link. The model has
these parts:

- **Timeline cursor** (`Timing`, from Base/timing.py). A stage holds three times: `start`,
  `current` and `permanent`. `abs`, `rel` and `rel_multiple` place an action relative to them
  and move the cursor. `start_local_timing` and `end_local_timing` rebase the start time and
  then restore it. The `_update_time` wrapper turns a stage body into an action.
  - `Timing.Sequence` is a class with those three `real` fields.
  - Its methods are proved against the pure step functions `AbsStep`, `RelStep`,
    `RelMultipleStep`, `StartLocal`, `EndLocal` and `BodyStep`.
- **Actions** are Dafny function values `real -> Outcome`. An outcome pairs the records that
  the call emits with its elapsed time, or with the Python exception that it raises. Records
  are `Events.Call` values, which carry the arguments of `set_digital_state` and
  `set_analog_state`. An `Events.EventLog` object collects them.
- **Output primitives** (`Outputs`, from Base/outputwrappers.py):
  - `digital_out` and `analog_out`.
  - The `AnalogRamp` class: quantised codes, the step list, and the linear ramp filled into
    arrays and reversed in place.
  - The `AnalogOscillate` range check and its triangular step list.
  - The two settle writes at the end of `sine`.
- **Event buffer and record encoding** (`Link`, from Entangleware/ew_link.py):
  - The `MsgSequence` class is the growable byte array of 24-byte records.
  - The `>dLLLL`/`>dLLLl` record layouts, and the connector and analog-code mappings.
  - The switch between buffering and sending an immediate message.
  - The run payload, and the acknowledgment check of chained runs.
  - `ConnectionManager.close` and `disconnect`.
- **Serial encoders** (`Boards`, `CrossPoint` and `Dac`, from Base/boards.py):
  - the bit-banged `_spi`, `_update_output` and `reverse_bits`;
  - the cross-point switch's command words, `_write_command`, `switch` and `initialize`;
  - the AD5372's sync-bracketed frame, voltage code, `initialize`, `load` and `set`.
- **Servo setpoints** (`Magnetics`, from Base/magnetics.py): the three digital setpoint
  encoders, `pinch_bias_voltage` and `fets_fast_on`.
- **Message framing** (`Framing`, from Entangleware/ew_tcpendpoint.py): the 16-byte big-endian
  header, the chunked `sendmsg` loop and the `getmsg` receive loop over an abstract socket.
  The socket follows a schedule of chunk sizes, one per call, and the loops are proved for
  every schedule, so for every pattern of partial sends and receives.

Helper modules: `Base` holds `Result`, the error kinds, truncation and ranges. `Bits` holds
Python's `>>`, `&`, `|` on naturals, and their bit lemmas. `Wire` holds `struct.pack` for the
unsigned and signed big-endian integer formats.

Times and voltages are exact `real`s. Python's floating-point rounding is not modelled, so a
property proved here holds exactly for the model and only up to rounding for the program.
Integer widths are modelled explicitly wherever `struct.pack` would raise.

Where the code and its documentation disagree, the model follows the code:

- A descending ramp's step list leaves out both end codes (Base/outputwrappers.py:165-166).
- A linear ramp with equal codes, or with zero total time, divides by zero and raises
  `ZeroDivisionError` (Base/outputwrappers.py:192-195).

## Model

| member | source | states |
|---|---|---|
| Timing.SchedulingKeepsStart | Base/timing.py:41-91 | for an action that does not share the calling stage's fields, `abs`, `rel` and `rel_multiple` leave `start_time` and `start_permanent` unchanged; only the cursor moves |
| Timing.AbsPlacesAtStart | Base/timing.py:50-53 | `abs(t, f)` calls `f` at `start + t`, returns what `f` returns, and leaves the cursor at `start + t + duration` (at `start + t` when `f` raises) |
| Timing.AbsOfOutcome | Base/timing.py:50-53 | when the action returns duration `e` with records `calls`, the whole new state is the cursor at `start + t + e`, those records, and `e` |
| Timing.AbsNullExtends | Base/timing.py:41-53 | `abs(t)` with the default `null_func` emits nothing, returns 0 and leaves the cursor exactly at `start + t` |
| Timing.AbsNegativeOffsetCancels | Base/timing.py:50-53 | an action at `start - d` that lasts `d` leaves the cursor back at `start` |
| Timing.RelSinglePlacesAtCursor | Base/timing.py:64-74 | `rel(d, f)` calls `f` at `current + d` and then advances the cursor by the duration `f` returns |
| Timing.BatchRun | Base/timing.py:66-69 | running a list of actions never moves the shared call time |
| Timing.BatchRunAllSucceed | Base/timing.py:66-70 | when no element raises, every element of the list is called at the same time, in list order, and the batch returns the last element's duration (0 for an empty list) |
| Timing.BatchRunFirstFailure | Base/timing.py:66-70 | when element `k` is the first to raise, the records are those of elements `0..k` and the exception is element `k`'s |
| Timing.BatchRunStops | Base/timing.py:66-70 | once a prefix of the list has raised, the later elements are never called |
| Timing.RelBatchAdvancesByLast | Base/timing.py:64-70 | `rel(d, list)` advances the cursor by `d` plus only the last element's duration |
| Timing.RelEmptyBatch | Base/timing.py:64-70 | `rel(d, [])` advances by `d` only, emits nothing and returns 0 |
| Timing.StepCalls | Base/timing.py:86-89 | in `rel_multiple`, step `k` is called at the entry cursor plus the first `k+1` delays |
| Timing.MultipleRunAllSucceed | Base/timing.py:86-91 | when no step raises, the steps run at their cumulative delays, the cursor ends at the entry cursor plus the sum of the delays, intermediate durations are ignored, and the result is the last step's duration (0 when empty) |
| Timing.MultipleRunCursor | Base/timing.py:86-91 | the cursor and result half of the property above |
| Timing.MultipleRunCalls | Base/timing.py:86-89 | the records half of the property above: the records are each step's records, in step order |
| Timing.MultipleRunStops | Base/timing.py:86-89 | a step that raises ends the loop: later steps are never called |
| Timing.RelMultipleAdvance | Base/timing.py:77-91 | `rel_multiple` leaves the cursor at the entry cursor plus all delays plus the last step's duration |
| Timing.RelMultipleEmpty | Base/timing.py:86-91 | `rel_multiple([])` changes nothing and returns 0 |
| Timing.LocalTimingBlock | Base/timing.py:94-110 | `start_local_timing(d)` moves both the cursor and `start_time` to `current + d`, so a following `abs(t)` lands at `current + d + t`; `end_local_timing` restores `start_time := start_permanent` and keeps the cursor |
| Timing.StageStartsAtT | Base/timing.py:29-35 | a wrapped stage called at `t` runs its body from the state `(t, t, t)` and returns `current_time - start_time` |
| Timing.NestedStageCursor | Base/timing.py:29-35 | a wrapped stage placed with `abs(t)` leaves the outer cursor at `start + t` plus the stage's own elapsed time, with the stage's records |
| Timing.BodyStepStops | Base/timing.py:33-34 | a statement of a stage body that raises ends the body |
| Timing.Sequence.constructor | Base/timing.py:12-22 | a new sequence has all three times at 0 |
| Timing.Sequence.Abs | Base/timing.py:41-53 | the new fields and log are those of `AbsStep` on the old fields |
| Timing.Sequence.Rel | Base/timing.py:55-74 | the new fields and log are those of `RelStep` on the old fields |
| Timing.Sequence.RunBatch | Base/timing.py:66-70 | the loop over a list appends exactly `BatchRun`'s records and returns its result |
| Timing.Sequence.RelMultiple | Base/timing.py:77-91 | the new fields and log are those of `RelMultipleStep` |
| Timing.Sequence.RunSteps | Base/timing.py:86-89 | the delay loop moves only the cursor, to `MultipleRun`'s cursor, and appends its records |
| Timing.Sequence.StartLocalTiming | Base/timing.py:94-103 | the new fields are `StartLocal` of the old ones |
| Timing.Sequence.EndLocalTiming | Base/timing.py:106-110 | the new fields are `EndLocal` of the old ones |
| Timing.Sequence.Wrapped | Base/timing.py:29-35 | the wrapper appends exactly the stage's records and returns its elapsed time |
| Outputs.DigitalOut | Base/outputwrappers.py:11-34 | raises ValueError, with no record, exactly when the connector is outside 0..3, the channel outside 0..31 or the state not 0/1; otherwise one record with mask = enable = `1<<channel`, value `state<<channel`, returning 1 µs |
| Outputs.AnalogOut | Base/outputwrappers.py:37-60 | raises ValueError exactly when the board is outside 0..1, the channel outside 0..7 or the value outside [-10, 10]; otherwise one record of the negated value, returning 2 µs |
| Outputs.RampCodeBounds | Base/outputwrappers.py:162-163 | a voltage in [-10, 10] quantises to a code in [-32768, 32768] |
| Outputs.StepListAscending | Base/outputwrappers.py:165-168 | when `q_start <= q_end`, the steps are `q_start, q_start+1, …, q_end` inclusive |
| Outputs.StepListDescending | Base/outputwrappers.py:165-166 | when `q_start > q_end+1`, the steps are `q_end+1 … q_start-1` ascending, with neither end code present |
| Outputs.StepListEmpty | Base/outputwrappers.py:165-168 | the step list is empty exactly when `q_start == q_end+1` |
| Outputs.StepTimes | Base/outputwrappers.py:194-195 | entry `i` is the linear inverse `t_start + (step_i - q_start)/slope` of step `i` |
| Outputs.StepValues | Base/outputwrappers.py:194-196 | entry `i` is step `i`'s voltage `20*step_i/2^16` |
| Outputs.RampCalls | Base/outputwrappers.py:179-182 | `_output` emits one record per list entry, in index order, with that entry's time and value |
| Outputs.RampTimeLine | Base/outputwrappers.py:192-195 | every timestamp lies on the straight line through `(q_start, t_start)` and `(q_end, t_start + total_time)` |
| Outputs.AscendingTimeAt | Base/outputwrappers.py:192-195 | on an ascending ramp, entry `i` is at `t_start + i*total_time/(q_end-q_start)` |
| Outputs.DescendingTimeAt | Base/outputwrappers.py:192-199 | after the reversal of a descending ramp, entry `i` is at `t_start + (i+1)*total_time/(q_start-q_end)` |
| Outputs.RampTimeDescending | Base/outputwrappers.py:192-195 | on a descending ramp, code `q_start-1-i` is at `t_start + (i+1)` quanta |
| Outputs.LinearAscending | Base/outputwrappers.py:192-196 | an ascending ramp starts at `t_start`, reaches `q_end` at `t_start + total_time`, and its times strictly increase |
| Outputs.LinearDescending | Base/outputwrappers.py:192-199 | after the reversal, a descending ramp starts with code `q_start-1` and ends with `q_end+1`; its times strictly increase and stay strictly inside `(t_start, t_start + total_time)` |
| Outputs.DescendingOrder | Base/outputwrappers.py:197-199 | the reversed timestamps of a descending ramp ascend |
| Outputs.DescendingWindow | Base/outputwrappers.py:197-199 | the reversed timestamps of a descending ramp lie strictly inside the ramp's interval |
| Outputs.ReverseInPlace | Base/outputwrappers.py:198-199 | the array afterwards holds its old contents reversed |
| Outputs.AnalogRamp.constructor | Base/outputwrappers.py:156-172 | the object holds the board, channel and time, the two codes `trunc(-v/20*2^16)`, the step list, and two fresh arrays of its length |
| Outputs.AnalogRamp.Create | Base/outputwrappers.py:147-172 | raises ValueError exactly for an invalid board, channel or voltage; otherwise it returns a new ramp as the constructor describes |
| Outputs.AnalogRamp.Output | Base/outputwrappers.py:174-182 | appends `RampCalls` of the two arrays to the log |
| Outputs.AnalogRamp.FillLinear | Base/outputwrappers.py:192-199 | the filled arrays are the timestamps and voltages of the step list, reversed for a descending ramp; with equal codes nothing is written |
| Outputs.AnalogRamp.Linear | Base/outputwrappers.py:184-201 | with zero time or equal codes it raises ZeroDivisionError and logs nothing; otherwise it logs one record per step at the linear timestamps and returns `total_time` |
| Outputs.OscillateCheck | Base/outputwrappers.py:291-298 | raises ValueError exactly when the board or channel is invalid, or `offset ± amplitude` leaves [-10, 10] |
| Outputs.OscillateNegative | Base/outputwrappers.py:297-311 | a negative amplitude passes the range check, but then `q_high <= 0 <= q_low` and the step list is empty, or the single code 0 when the amplitude is below one code |
| Outputs.OscillateTriangle | Base/outputwrappers.py:307-311 | `q_low = -q_high`; the oscillation's step list (`0 … q_high-1`, `q_high` down to `q_low+1`, `q_low … 0`) has `4*q_high+1` entries, starts and ends at 0, stays within `[q_low, q_high]` and moves by exactly one code per entry |
| Outputs.TriangleAt | Base/outputwrappers.py:307-311 | the triangle has `4h+1` entries, each given in closed form |
| Outputs.TriangleShape | Base/outputwrappers.py:307-311 | the triangle of height `h` has `4h+1` entries, starts and ends at code 0, stays within `[-h, h]`, and neighbouring entries differ by exactly one |
| Outputs.SineSettleAsWritten | Base/outputwrappers.py:418-420 | as written, the two zero writes are at `total_time + 1 µs` and `+ 2 µs`, and the result is `total_time + 2 µs` |
| Outputs.SineSettleBeforeStart | Base/outputwrappers.py:418-419 | a sine starting at 5 s with a 1 s duration writes its settle value at 1 s, before it started |
| Outputs.SineSettle | Base/outputwrappers.py:416-420 | corrected: both zero writes come after `t_start + total_time`, the second after the first, and the last one is at `t_start` plus the returned duration |
| Link.DigitalRecord | Entangleware/ew_link.py:349 | a `>dLLLL` record is 24 bytes: the 8 time bytes, then connector, mask, enable and state as big-endian u32; it raises StructError exactly when a field is outside u32 |
| Link.AnalogRecord | Entangleware/ew_link.py:385-386 | a `>dLLLl` record is 24 bytes with a signed last field; it raises StructError exactly when a field is out of range |
| Link.ImmediateAnalog | Entangleware/ew_link.py:390 | the immediate `>dBBd` message is 18 bytes; board and channel must fit a byte |
| Link.LinkConnector | Entangleware/ew_link.py:345-348 | a connector in 0..3 becomes connector+1, and any other connector becomes 0 |
| Link.AnalogCode | Entangleware/ew_link.py:373-379 | the code is `trunc(value/20*2^16)` clamped to [-2^15, 2^15-1] |
| Link.AnalogCodeMonotone | Entangleware/ew_link.py:373-379 | the clamped code is monotone in the voltage |
| Link.AnalogMask | Entangleware/ew_link.py:382-384 | the mask is the single bit `board*8+channel`, which fits 16 bits |
| Link.AnalogBlock | Entangleware/ew_link.py:423-430 | the packed list is 24 bytes per pair |
| Link.AnalogBlockRecords | Entangleware/ew_link.py:423-430 | bytes `24i .. 24(i+1)` of the packed list are the record of pair `i` |
| Link.CyclePrefixIsOne | Entangleware/ew_link.py:247-248 | the run prefix is `struct.pack('>l', 1)` = `00 00 00 01` |
| Link.Written | Entangleware/ew_link.py:166 | writing an element keeps the buffer length, puts the element at its offset and keeps every other byte |
| Link.Growth | Entangleware/ew_link.py:158-160 | the growth is a whole number of base blocks, and afterwards the element fits |
| Link.AddedFacts | Entangleware/ew_link.py:154-167 | after any append, the buffer is still a whole number of at least one base block, and all earlier bytes are kept |
| Link.MsgSequence.constructor | Entangleware/ew_link.py:134-146 | a new buffer: not building, local, end index 0, `24*2^20` zero bytes, first chain call pending |
| Link.MsgSequence.Contents | Entangleware/ew_link.py:253 | the logical contents are `end_index*24` bytes |
| Link.MsgSequence.AddElement | Entangleware/ew_link.py:148-167 | raises ValueError, changing nothing, unless the length is a multiple of 24; otherwise the contents become the old contents plus the element, earlier bytes are kept, the buffer grows by whole blocks only when needed, and the index becomes fractional |
| Link.MsgSequence.Grow | Entangleware/ew_link.py:159-161 | the new buffer is the old one followed by zeros |
| Link.MsgSequence.WriteAt | Entangleware/ew_link.py:166 | the buffer becomes `Written` of the old buffer |
| Link.MsgSequence.Clear | Entangleware/ew_link.py:181-186 | not building, end index 0, and a fresh `24*2^20` zero buffer with any growth dropped |
| Link.ConnectionManager.constructor | Entangleware/ew_link.py:18-23 | a new manager is disconnected and holds no handles |
| Link.ConnectionManager.Send | Entangleware/ew_tcpendpoint.py:16-28 | without an endpoint it raises AttributeError and sends nothing; a message that cannot be framed raises StructError; otherwise the message is appended to the sent messages |
| Link.ConnectionManager.Receive | Entangleware/ew_tcpendpoint.py:30-38 | without an endpoint it raises AttributeError; with nothing pending it times out; otherwise it returns and consumes the next pending message |
| Link.ConnectionManager.Close | Entangleware/ew_link.py:25-39 | records each open handle (endpoint, server, UDP) as closed, in that order, drops all three, and marks the link disconnected |
| Link.Disconnect | Entangleware/ew_link.py:208-210 | closes only when connected; otherwise it changes nothing |
| Link.BuildSequence | Entangleware/ew_link.py:213-219 | sets `building` and keeps the buffer; in remote mode it sends the type-16 message |
| Link.ClearSequence | Entangleware/ew_link.py:222-228 | locally it clears the buffer; remotely it sends the type-17 message |
| Link.SetDigitalState | Entangleware/ew_link.py:311-354 | when building locally, it appends the 24-byte record with the mapped connector; otherwise it sends the record unmapped as a type-20 message and leaves the buffer alone |
| Link.ListRecords | Entangleware/ew_link.py:405-430 | the list is cut to the shorter of the two lists, giving 24 bytes per pair |
| Link.AnalogCodes | Entangleware/ew_link.py:412-421 | the loop fills a fresh array with the clamped code of each value, in order |
| Link.AppendAnalog | Entangleware/ew_link.py:369-387 | appends the connector-5 record with mask bit `board*8+channel`, enable 0 and the clamped code; an invalid board or channel appends nothing and raises nothing |
| Link.AppendAnalogList | Entangleware/ew_link.py:395-431 | appends one clamped record per pair, in order, for the first `min(len)` pairs; an invalid board or channel appends nothing |
| Link.SetAnalogState | Entangleware/ew_link.py:357-436 | a number/number call buffers or sends a type-21 message; a list/list call buffers when building locally and otherwise raises ValueError; any other combination raises ValueError |
| Link.RunMessage | Entangleware/ew_link.py:247-253 | the run payload is `00 00 00 01` followed by the logical contents |
| Link.SendRun | Entangleware/ew_link.py:250-257 | the run is sent exactly when there is an endpoint and its message can be framed (always, remotely); locally it sends the run payload as type 22 and clears the buffer, remotely only the prefix as type 18; otherwise it raises AttributeError or StructError and nothing changes |
| Link.RunSequence | Entangleware/ew_link.py:246-273 | a run that cannot be sent raises before anything changes; otherwise the run is sent and, locally, the buffer cleared whatever the replies; then a missing reply times out, a run-time reply that is not 8 bytes raises StructError, and with both replies present the `Done` message is returned and both are consumed |
| Link.ChainMessageAsWritten | Entangleware/ew_link.py:289 | as written, slicing with a fractional end index raises TypeError |
| Link.ChainAsWrittenRejectsBufferedRecords | Entangleware/ew_link.py:289 | with one record appended since the last clear, the chained run as written raises TypeError, while an integer index gives the proper payload |
| Link.AwaitAck | Entangleware/ew_link.py:277-282 | on the first call it reads nothing; afterwards it consumes one message and passes exactly when it is `(b'Done', 15, 15)`, raising AttributeError without an endpoint, a timeout with nothing pending and ValueError for any other message |
| Link.RunSequenceChainAsWritten | Entangleware/ew_link.py:276-301 | the chained run as written fails with TypeError whenever the buffer was appended to since the last clear |
| Link.ChainRun | Entangleware/ew_link.py:284-301 | after the acknowledgment: a run that cannot be sent raises before anything changes; otherwise the run is sent and, locally, the buffer cleared whatever the reply; a missing reply times out, a reply that is not 8 bytes raises StructError, and an 8-byte reply is recorded as the last run time and clears the first-call flag |
| Link.RunSequenceChain | Entangleware/ew_link.py:276-301 | corrected: a failed acknowledgment check raises before anything is sent; a run that cannot be sent raises after it; otherwise the run is sent as by `run_sequence` and, locally, the buffer cleared; a missing run-time reply times out and a wrong-sized one raises StructError, both leaving the first-call flag; an 8-byte reply is recorded as the last run time and clears the flag |
| Framing.Header | Entangleware/ew_tcpendpoint.py:18 | the header is 16 bytes: `msgid` u64, `msgtype` u32 and length u32, big-endian; it raises StructError exactly when a field is out of range |
| Framing.DecodeHeader | Entangleware/ew_tcpendpoint.py:32 | decodes exactly the 16-byte headers |
| Framing.Frame | Entangleware/ew_tcpendpoint.py:17-19 | a frame is the header followed by the payload |
| Framing.FrameDefined | Entangleware/ew_tcpendpoint.py:17-19 | a message can be framed exactly when its id, type and length fit their fields |
| Framing.HeaderRoundTrip | Entangleware/ew_tcpendpoint.py:18-32 | decoding an encoded header gives the id, type and length back |
| Framing.FrameRoundTrip | Entangleware/ew_tcpendpoint.py:16-38 | reading a frame back from its bytes, followed by anything, gives the message back (including an empty payload) |
| Framing.FrameAtHeader | Entangleware/ew_tcpendpoint.py:31-37 | a stream shorter than the header plus the stated length times out |
| Framing.Socket.Send | Entangleware/ew_tcpendpoint.py:26 | a send accepts a prefix of the chunk, at least one byte of a non-empty chunk, of the length the network's schedule allows for this call |
| Framing.Socket.Recv | Entangleware/ew_tcpendpoint.py:31 | a receive times out on an empty stream; otherwise it takes the next incoming bytes, between one and `n` of them, as many as the schedule allows for this call |
| Framing.Socket.RecvInto | Entangleware/ew_tcpendpoint.py:36 | `recv_into` writes between one and `n` incoming bytes at the given offset of the buffer and keeps every other byte |
| Framing.SendMsg | Entangleware/ew_tcpendpoint.py:16-28 | for every schedule of partial sends: each send is offered at most 512 bytes starting at `startaddr`; the accepted chunks, concatenated, are exactly the frame; an unencodable message sends nothing |
| Framing.ReadPayload | Entangleware/ew_tcpendpoint.py:35-37 | for every schedule of partial receives, the corrected loop reads exactly `msglength` bytes front to back, or times out when fewer arrive |
| Framing.GetMsg | Entangleware/ew_tcpendpoint.py:30-38 | corrected: the message read from a stream is the one `FrameAt` decodes from it, and exactly its bytes are consumed; a header split over two receives raises StructError; a frame whose header arrives in one piece is always read |
| Framing.Stream | Entangleware/ew_tcpendpoint.py:16-28 | a queue of messages sent one after another has a byte stream exactly when every message can be framed |
| Framing.StreamFront | Entangleware/ew_tcpendpoint.py:16-38 | the stream of a queue starts with the frame of its first message, followed by the stream of the rest |
| Framing.GetQueued | Entangleware/ew_tcpendpoint.py:30-38 | on the stream of a queue, `getmsg` times out when the queue is empty, can only return the first message and leave the stream of the rest, and does return it when the header arrives in one piece |
| Framing.ZeroOffsetFill | Entangleware/ew_tcpendpoint.py:35-37 | the as-written fill keeps the buffer's length |
| Framing.RecvAtZero | Entangleware/ew_tcpendpoint.py:36-37 | as written, each `recv_into` overwrites the start of the buffer |
| Framing.ReadAtZero | Entangleware/ew_tcpendpoint.py:35-37 | for every schedule, the as-written loop's buffer is `ZeroOffsetFill` of the incoming bytes on that schedule |
| Framing.GetMsgAsWritten | Entangleware/ew_tcpendpoint.py:30-38 | as written, the header is decoded and the payload comes from `ZeroOffsetFill`, not from the stream in order |
| Framing.ZeroOffsetFillCorrupts | Entangleware/ew_tcpendpoint.py:34-37 | a 17-byte payload `1..17` whose first receive brings 16 bytes is returned as `17, 2, …, 16, 0` |
| Framing.ZeroOffsetFillWhole | Entangleware/ew_tcpendpoint.py:35-37 | as written, a payload that arrives in one receive is read correctly |
| Boards.NewBoard | Base/boards.py:9-31 | a board keeps its connector and pins, and its step is the 1 µs digital step |
| Boards.LineLevel | Base/boards.py:80-85 | a single-line record drives that line to the requested level |
| Boards.SpiStateLines | Base/boards.py:57-60 | each `_spi` state carries the data bit on the io line, the clock level on the clock line, and stays within the mask |
| Boards.SpiCalls | Base/boards.py:48-69 | `_spi` emits `16*(len(bytes)+1)` records |
| Boards.Spi | Base/boards.py:33-70 | the loop emits exactly `SpiCalls` and returns 0 |
| Boards.ShiftOut | Base/boards.py:55-61 | one byte of the loop adds 16 records at the right position of `SpiCalls` |
| Boards.SpiShape | Base/boards.py:49-69 | every record is on the board's connector with mask = enable = the io bit or-ed with the clock bit, and its state within the mask |
| Boards.SpiTimeAt | Base/boards.py:56-69 | record `j` is at `spi_time - (j+1)*spi_min_time` |
| Boards.SpiWindow | Base/boards.py:48-70 | every record is strictly before `spi_time`, and the earliest is at `spi_time - 16(n+1)*spi_min_time` |
| Boards.SpiDescending | Base/boards.py:56-69 | the records' times strictly decrease in emission order |
| Boards.SerialBits | Base/boards.py:52-69 | the bits on the wire, in time order, are the register byte then the payload bytes in order, each most significant bit first |
| Boards.SpiSerialOrder | Base/boards.py:52-69 | read in time order, each bit is sent as clock-low then clock-high with that data bit, and the sequence of bits is `SerialBits` |
| Boards.UpdateOutput | Base/boards.py:72-86 | the update pin goes high at `t` and low at `t + spi_min_time`; the result is `2*spi_min_time` |
| Boards.ReverseBits | Base/boards.py:965-979 | returns a value exactly when `num >= 0`; a negative number raises ValueError, because its `bin` text carries a sign |
| Boards.ReverseBitsSpec | Base/boards.py:965-979 | for `num < 2^n`, the result is below `2^n`, its bit `k` is bit `n-1-k` of `num`, and reversing twice gives `num` back |
| Boards.ReversedBits | Base/boards.py:975-979 | for `num < 2^n`, the result is the n-bit string of `num` read in reverse |
| Boards.ReverseBitsPadded | Base/boards.py:975-979 | for any `num`, the result reads the binary digits of `num`, padded with zeros to `n`, most significant first |
| CrossPoint.BitCalls | Base/boards.py:998-1007 | each command bit is three records: the data line, the clock low at the same time, and the clock high one `clock_inc` later |
| CrossPoint.CommandCalls | Base/boards.py:996-1026 | a command write emits 36 records |
| CrossPoint.WriteCommand | Base/boards.py:996-1026 | the loop emits exactly `CommandCalls` |
| CrossPoint.WriteCommandRoundTrip | Base/boards.py:998-1001 | reading the data line at each clock edge recovers the 10 command bits, least significant first |
| CrossPoint.WriteCommandTiming | Base/boards.py:997-1007 | bit `i` is set up at `spi_time + (2i-21)*clock_inc` with the clock low and clocked high one `clock_inc` later; the serial strobe rises at `spi_time - clock_inc`, the cross-point strobe at `spi_time`, and all four lines drop at `spi_time + clock_inc` |
| CrossPoint.WriteCommandWindow | Base/boards.py:996-1024 | every record lies between `spi_time - 21*clock_inc` and `spi_time + clock_inc` |
| CrossPoint.CommandWord | Base/boards.py:1053-1057 | the or-ed word of `rev3(y)<<7`, `rev4(x)<<3`, `connect<<2` and `1<<1` equals the arithmetic word, fits 10 bits, and its fields decode back to `y`, `x` and `connect` |
| CrossPoint.Layout | Base/boards.py:1053 | the or-ed fields of the word do not overlap, so the or is a sum |
| CrossPoint.Switch | Base/boards.py:1028-1060 | raises ValueError exactly when `y` is outside 0..7 or `new_x` outside 0..15; otherwise it returns `46*clock_inc` |
| CrossPoint.SwitchBreakBeforeMake | Base/boards.py:1050-1058 | for a valid `old_x`, the switch writes 72 records: the disconnect word for `old_x`, then the connect word for `new_x`, every disconnect record strictly earlier than every connect record |
| CrossPoint.SwitchRun | Base/boards.py:1073-1080 | the switch loop of `initialize` emits 36 records per row |
| CrossPoint.InitializeTimeline | Base/boards.py:1070-1080 | the loop emits exactly the initialization records |
| CrossPoint.SwitchStep | Base/boards.py:1073 | each iteration appends one row's switch and advances time by `46*clock_inc` |
| CrossPoint.InitializeAsWritten | Base/boards.py:1062-1081 | as written, it returns the absolute time reached |
| CrossPoint.Initialize | Base/boards.py:1062-1081 | corrected: the same records, returning the elapsed time |
| CrossPoint.SwitchRunWindow | Base/boards.py:1073-1080 | all records of `k` rows lie between `t - 21*clock_inc` and `t + 46k*clock_inc` |
| CrossPoint.InitializeCursor | Base/inireset.py:43 | placed with `abs(t)`, the as-written return value moves the stage cursor to `2*(start+t)` plus the run time; the corrected value moves it to `start + t` plus the run time, and all records lie before that cursor |
| CrossPoint.InitializeWindow | Base/boards.py:1070-1081 | the initialization records lie within the elapsed time it should return |
| Dac.NewAD5372 | Base/boards.py:836-857 | the DAC keeps its pins and uses a 100 ns step |
| Dac.VoltsToCodeSpec | Base/boards.py:908-921 | the code is `trunc(0.5 + 65536(v+4)/12)` saturated at 0xFFFF: rounding half up, 2 big-endian bytes, and StructError exactly when it is negative |
| Dac.DacCodeMonotone | Base/boards.py:916-919 | the code is monotone in the voltage |
| Dac.DacCodePoints | Base/boards.py:916-921 | -4 V gives `00 00`, 0 V gives `55 55`, and 8 V or more gives `FF FF` |
| Dac.ChannelRegisterFields | Base/boards.py:937 | the register byte of channel `c` is `0xC8 + c`: mode bits 3 and address `8 + c`, distinct for each channel |
| Dac.SyncCalls | Base/boards.py:859-890 | `_spi_sync` emits the SPI frame plus three sync records |
| Dac.SpiSync | Base/boards.py:859-890 | the method emits exactly `SyncCalls` |
| Dac.FallTime | Base/boards.py:881-886 | the sync falls one step before the earliest data record |
| Dac.SyncFrame | Base/boards.py:879 | the records between the sync edges are the `_spi` frame ending one step before `spi_time` |
| Dac.SyncEdges | Base/boards.py:873-889 | sync is high first, falls before the frame and rises after it, each edge one step from the frame |
| Dac.SyncBrackets | Base/boards.py:875-889 | every data record is at least one step after the sync fall and at least one step before the sync rise |
| Dac.Initialize | Base/boards.py:892-906 | drops LDAC at `spi_time`, writes the 0 V code to register 0xC0 in a sync frame, raises LDAC one step later, and returns two steps |
| Dac.Load | Base/boards.py:923-946 | raises StructError, with no records, exactly when the code cannot be packed; otherwise it writes the code to the channel's register in a sync frame, raises LDAC one step after `spi_time` and returns two steps |
| Dac.Set | Base/boards.py:948-962 | raises StructError exactly when the code cannot be packed; otherwise it writes only the sync frame to the channel's register and returns 0 |
| Dac.LoadLatchesLater | Base/boards.py:939-944 | the last record of `load` raises LDAC at `spi_time + spi_min_time`, after every other record |
| Magnetics.DigitalSetpoint | Base/magnetics.py:154-160 | one record on the configured connector, with enable equal to the mask, returning the digital step |
| Magnetics.CartDigitalSetpoint | Base/magnetics.py:142-160 | one record on connector 3 with mask = enable = lines 12, 8, 10 |
| Magnetics.PinchDigitalSetpoint | Base/magnetics.py:164-181 | one record on connector 1 with mask = enable = lines 12, 8, 10 |
| Magnetics.BiasDigitalSetpoint | Base/magnetics.py:185-202 | one record on connector 1 with mask = enable = lines 20, 16, 18 |
| Magnetics.ConfiguredLinesDistinct | Base/channels.py:28-30 | the three configured lines of each encoder are distinct |
| Magnetics.SetpointMaskBits | Base/magnetics.py:154 | the mask has exactly the three line bits set |
| Magnetics.SetpointStateBits | Base/magnetics.py:155-156 | line0 carries `i&1`, line1 `(i>>1)&1` and line2 `(i>>2)&1`, and every other line is 0 |
| Magnetics.SetpointStateWithinMask | Base/magnetics.py:155-156 | the state lies within the mask |
| Magnetics.LowBits | Base/magnetics.py:155-156 | the three selector bits spell `i mod 8` |
| Magnetics.SetpointModulo | Base/magnetics.py:155-156 | only the low three bits of `i` matter |
| Magnetics.SetpointRoundTrip | Base/magnetics.py:155-156 | reading the three lines back gives `i mod 8` |
| Magnetics.DigitalSetpointRecord | Base/magnetics.py:154-158 | the single record has the configured connector, mask and enable, and a state within the mask |
| Magnetics.PinchBiasVoltage | Base/magnetics.py:86-112 | raises ValueError exactly when `ib > 150` |
| Magnetics.PinchBiasSupply | Base/magnetics.py:98-112 | the result is `-5/8` of the bias voltage when `ip == 0`, and otherwise `-5/8` of the larger of the two coil voltages |
| Magnetics.PinchBiasMonotone | Base/magnetics.py:102-112 | more bias current never gives a less negative setting |
| Magnetics.FetsFastOn | Base/magnetics.py:205-216 | the FET line goes high at `t` and low at `t + 1 ms`; the result is `1 ms + 1 µs` |
| Wire.PackU16 | Base/boards.py:921 | `struct.pack('>H')`: 2 big-endian bytes, raising StructError exactly outside 0..0xFFFF |
| Wire.PackI32 | Entangleware/ew_link.py:248 | `struct.pack('>l')`: 4 big-endian two's-complement bytes, raising StructError exactly outside the signed 32-bit range |

## Left out

- Actions are function values returning their records and elapsed time. They are not objects that write to a global event log; `Timing.Sequence` appends the records to an `EventLog` it is given. This captures the same order and timing for every action that does not share the calling stage's fields.
- An action is assumed not to share the calling stage's fields. A method of the same object decorated with `_update_time` and placed with `abs` or `rel` (as at Base/imaging.py:79) is not modelled. Its wrapper (Base/timing.py:29-35) overwrites the caller's `start_time`, `current_time` and `start_permanent`, and the caller then adds the elapsed time to a cursor already moved by it.
- Binary64 floating point: times and voltages are exact reals, so the model does not capture rounding, `inf` or `nan`.
- The IEEE 754 binary64 byte layout of the `d` fields: the 8 timestamp bytes come from a function supplied to the buffer, and their layout is not modelled.
- Network and file I/O: `connect`, socket set-up, UDP discovery, `settimeout`, and the `LastCompiledRun.dat` write. The socket is a sequence of incoming bytes with a schedule of chunk sizes, one per call, that stands for any pattern of partial transfers; an empty stream stands for a timeout.
- `print` and `warnings.warn` calls, which have no effect on the state.
- Transcendental ramps: the timestamps of `exponential`, `exponential_down`, `sigmoidal` and `sine`, which need exp, log and asin. Only the oscillation's step list, its range check and the sine's settle writes are modelled.
- The DDS boards `AD9959`, `AD9854` and `AD9910`, and the unused `DDS` class of the link module: they are float register arithmetic.
- The calibration formulas of the magnet module apart from `pinch_bias_voltage`, the module-level coil flags and the coil classes: they are constants and lab-specific composition.
- `rerun_last_sequence` and `stop_sequence`: these send fixed messages, or re-read a file.
- Experiment scripts and the other composition modules, apart from the one call of `XPSwitch.initialize` at Base/inireset.py:43 that shows the as-written return value's effect.
- Boards.UpdateOutput: the update pin is a parameter, because only the DDS subclasses define `io_update_pin`.
- Boards.NewBoard: pins are natural numbers. Python's `1 << -1` raises ValueError, and that case is not modelled.
- Link.SetAnalogState: board and channel are integers. A float board or channel passes the `(int, float)` type test. If it is in range, the local path then raises TypeError at `1 << shift_amount` (Entangleware/ew_link.py:384 and 403). The remote path raises struct.error at the `'>dBBd'` pack (Entangleware/ew_link.py:390). Float and non-numeric board and channel arguments are not modelled.
- Link.ConnectionManager.Receive: the pending replies are whole, correct messages, as the corrected `Framing.GetMsg` reads them from the stream of a queue (`Framing.GetQueued`). The link layer therefore assumes the corrected `getmsg`, and `Link.RunSequence`, `Link.AwaitAck` and `Link.RunSequenceChain` rely on that. The payload corruption of the as-written `getmsg` (`Framing.GetMsgAsWritten`) is not carried into the link layer.
- Dac.SyncFrame: Dafny proves this one without hints, so it states the frame layout but carries no proof of its own.

## Findings

| source | as written | input that shows it | evidently intended | confidence | as-written member | corrected member |
|---|---|---|---|---|---|---|
| Entangleware/ew_tcpendpoint.py:35-37 | every `recv_into(msgview, msglength)` writes at offset 0, because the view is never advanced | a 17-byte payload `1..17` that arrives 16 bytes per receive is returned as `17, 2, …, 16, 0` | each receive fills the buffer after the bytes already read | not executed | Framing.ZeroOffsetFillCorrupts | Framing.GetMsg |
| Entangleware/ew_link.py:289 | `run_sequence_chain` slices with `seqendindex*24`, and `seqendindex` is a float after any `addElement` (true division) | one 24-byte record appended after a clear: the slice index is `24.0` and raises TypeError | convert the index to `int` first, as `run_sequence` does at line 250 | not executed | Link.ChainAsWrittenRejectsBufferedRecords | Link.RunSequenceChain |
| Base/boards.py:1081 | `XPSwitch.initialize` returns the absolute time reached, not the elapsed time | `spi_time = 1` s: `abs` at Base/inireset.py:43 moves the cursor to about twice the start time | return `time - spi_time` | not executed | CrossPoint.InitializeCursor | CrossPoint.Initialize |
| Base/outputwrappers.py:418-420 | the two settle writes at the end of `sine` are at `total_time + 1 µs` and `+ 2 µs`, without `t_start` | `t_start = 5`, `total_time = 1`: the settle write is at about 1 s, before the oscillation started | write at `t_start + total_time + 1 µs` and `+ 2 µs` | not executed | Outputs.SineSettleBeforeStart | Outputs.SineSettle |
