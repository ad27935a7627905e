# Scheduling and delay padding of quantum circuits

This project models the timing analysis and delay padding of Qiskit's transpiler,
as pinned down by `TestSchedulingAndPaddingPass`:

- **SetIOLatency** sets two latencies, `clbit_write_latency` and
  `conditional_latency`. Both default to 0. In the model they form the
  `Timing.IOLatency` value that both scheduling passes take as a parameter.
- **ASAPScheduleAnalysis** takes the instructions in program order and keeps, per wire
  (qubit or classical bit), the time from which that wire is free. Each instruction is
  placed as early as its qubits and its classical bits allow (`Asap.Step`):
  - a measure may start `clbit_write_latency` before its clbits are free;
  - a conditional gate reads its condition bits for `conditional_latency` before it starts;
  - a barrier joins all of its wires at one instant.
- **ALAPScheduleAnalysis** is the mirror image. It takes the instructions from last to
  first, in time counted back from the end of the circuit (`Alap.Step`), and then turns
  every distance from the end into a start time (`Alap.Flip`, `Alap.Turn`).
- Both passes look each instruction's duration up before they place anything. They
  check, in order:
  - a calibration attached to the circuit for that name and those qubits;
  - then an entry for that name and those exact qubits;
  - then a wildcard entry for the name.
  A delay lasts its own length and a barrier lasts 0. An instruction with no duration
  is an error, and so is a conditional instruction that is neither a gate nor a delay.
- **PadDelay** fails when the circuit carries no start times, or when an instruction has
  none. Otherwise it:
  - drops the input delays (they only count as idle time);
  - visits the instructions in program order and, on each of an instruction's qubits,
    inserts a delay for the gap between that qubit's cursor and the instruction's start;
  - with `fill_very_end`, pads every qubit up to the circuit's duration.

  No delay is inserted on a qubit where the target does not support delays.

The implementations of the four passes are not part of this model. Their rules here are
reconstructed so that every expectation of the test file holds. Each test is a module
of concrete lemmas (`scenario_*.dfy`) that derives, from the general definitions:

- the exact start times and circuit duration under ASAP and ALAP;
- the exact padded circuit.

The general properties are stated once for all circuits:

- both schedules respect the timing constraints of `Constraints.Respects`:
  - every instruction lies within the circuit's duration;
  - instructions sharing a qubit do not overlap and keep their order;
  - a conditional instruction starts at least `conditional_latency` after the
    measure that last wrote its bit ends;
  - two measures of the same bit keep their order, up to `clbit_write_latency`;
  - two conditional instructions reading the same bit, with no write of it
    between them, start at least `conditional_latency` apart, in order;
  - a measure overwriting a bit that a conditional instruction read before it,
    with no write between the two, starts no earlier than `clbit_write_latency`
    before that instruction;
- an instruction that acts on qubits alone (no clbit, no condition) is placed by
  ASAP as early, and by ALAP as late, as a predecessor or successor on one of its
  qubits allows;
- ALAP is the mirrored ASAP of the reversed circuit;
- padding fills every qubit's timeline without gaps;
- padding keeps the input instructions at their start times and inserts only delays.

The docstring of `test_random_complicated_circuit` draws a circuit lasting 2800 dt. The
assertions at `test/python/transpiler/test_scheduling_padding_pass.py:742` and `:770`
require 3100 dt. The model follows the assertions (`RandomCircuit.RandomAsap`,
`RandomCircuit.RandomAlap`).

Files:

| file | what it holds |
|---|---|
| `circuits.dfy` | circuits, instructions, errors, reversal |
| `timing.dfy` | latencies, schedules, the per-wire availability map |
| `constraints.dfy` | the timing constraints a schedule must respect |
| `durations.dfy` | duration tables, targets, calibrations, lookup |
| `asap.dfy` | the ASAP rule and pass |
| `alap.dfy` | the ALAP rule and pass |
| `duality.dfy` | ALAP as mirrored ASAP |
| `padding.dfy` | PadDelay |
| `pipeline.dfy` | scheduling followed by padding |
| `scenario_*.dfy` | one module per test |

## Model

| member | source | states |
|---|---|---|
| Circuits.Reverse | test/python/transpiler/test_scheduling_padding_pass.py:55-56 | `reverse_ops` keeps the registers and lists the same instructions in the opposite order, and keeps a well-formed circuit well formed |
| Circuits.ReverseInvolutive | test/python/transpiler/test_scheduling_padding_pass.py:55-56 | reversing twice gives the circuit back, as the double reversal in the test needs |
| Circuits.AppendWellFormed | test/python/transpiler/test_scheduling_padding_pass.py:41-45 | building a circuit by appending valid instructions keeps it well formed |
| Timing.SpanIs | test/python/transpiler/test_scheduling_padding_pass.py:742 | a corollary of `Timing.SpanFacts`, used by the scenarios: the circuit duration is the availability of the wire that no other wire exceeds |
| Constraints.LatestEnd | test/python/transpiler/test_scheduling_padding_pass.py:741-742 | the circuit duration is at least every instruction's end, and equals one of them (0 for an empty circuit) |
| Constraints.LatestEndLast | test/python/transpiler/test_scheduling_padding_pass.py:741-742 | the latest end over one more instruction is the later of the previous latest end and that instruction's end |
| Constraints.BarrierJoin | test/python/transpiler/test_scheduling_padding_pass.py:406-440 | a corollary of `QubitsExclusive` applied twice: in any schedule that respects the constraints, an instruction after a barrier never starts before an instruction before it ends, when they touch the barrier's qubits |
| Durations.Lookup | test/python/transpiler/test_scheduling_padding_pass.py:250-252 | a barrier lasts 0 and a delay its length; a gate or measure has a duration if and only if there is an exact or wildcard entry for it; an exact entry gives its value, and otherwise the wildcard entry gives its value |
| Durations.CalibrationThenLastEntry | test/python/transpiler/test_scheduling_padding_pass.py:822-848 | under a table built from entries, an instruction's duration is its calibration if it has one; otherwise a barrier lasts 0 and a delay its length; a gate or measure takes the last entry for its name on its exact qubits, failing that the last wildcard entry for its name, and failing both has none |
| Durations.DurationsOf | test/python/transpiler/test_scheduling_padding_pass.py:47-49 | one duration per instruction, each the one its lookup gives |
| Durations.DurationsOfSnoc | test/python/transpiler/test_scheduling_padding_pass.py:41-49 | resolving one more instruction appends its own duration |
| Durations.DurationsAre | test/python/transpiler/test_scheduling_padding_pass.py:47-49 | durations fixed instruction by instruction are exactly the resolved durations |
| Durations.ExactLookupIsLastEntry | test/python/transpiler/test_scheduling_padding_pass.py:349-351 | a name-and-qubits key is in the table if and only if some entry gives it, and its duration is that of the last such entry |
| Durations.WildcardLookupIsLastEntry | test/python/transpiler/test_scheduling_padding_pass.py:120 | a wildcard name is in the table if and only if some wildcard entry gives it, and its duration is that of the last such entry |
| Durations.ResolveDurations | test/python/transpiler/test_scheduling_padding_pass.py:47-52 | succeeds if and only if every instruction has a duration, and then returns them; otherwise names the first instruction without one |
| Asap.StepFacts | test/python/transpiler/test_scheduling_padding_pass.py:91-131 | one ASAP placement: the start is no earlier than any of its qubits is free, its qubits become busy until its end, a measure writes its clbits at its end and may start `clbit_write_latency` early, a conditional reads its bits `conditional_latency` before it starts, other clbits are untouched, and a gate starts when one of its qubits frees |
| Asap.StepQubits | test/python/transpiler/test_scheduling_padding_pass.py:312-374 | an instruction starts once all its qubits are free and holds exactly its qubits until its end |
| Asap.StepMeasure | test/python/transpiler/test_scheduling_padding_pass.py:134-172 | a measure starts no earlier than `clbit_write_latency` before its clbits free, and holds them until its end |
| Asap.StepConditional | test/python/transpiler/test_scheduling_padding_pass.py:528-593 | a conditional's condition bits are read from at least `conditional_latency` after they were free, and the read completes exactly when the conditional starts, so the bits stay busy until then |
| Asap.StepTight | test/python/transpiler/test_scheduling_padding_pass.py:312-374 | an instruction on qubits only starts exactly when one of its qubits becomes free |
| Asap.RunQubitsExclusive | test/python/transpiler/test_scheduling_padding_pass.py:134-172 | instructions sharing a qubit run in program order and never overlap |
| Asap.RunReadsAfterWrite | test/python/transpiler/test_scheduling_padding_pass.py:91-131 | a conditional starts at least `conditional_latency` after the measure that last wrote its bit ends |
| Asap.RunWritesInOrder | test/python/transpiler/test_scheduling_padding_pass.py:442-526 | two writes of the same clbit keep their order, up to `clbit_write_latency` |
| Asap.RunReadsInOrder | test/python/transpiler/test_scheduling_padding_pass.py:773-820 | two conditional instructions reading a clbit that nothing writes between them start at least `conditional_latency` apart, in program order |
| Asap.RunReadsBeforeWrite | test/python/transpiler/test_scheduling_padding_pass.py:263-310 | a measure overwriting a clbit read by an earlier conditional instruction, with no write between, starts no earlier than `clbit_write_latency` before that instruction |
| Asap.RunSpan | test/python/transpiler/test_scheduling_padding_pass.py:741-742 | the span over all wires after the pass equals the latest end of any instruction |
| Asap.Schedule | test/python/transpiler/test_scheduling_padding_pass.py:364-374 | one start time per instruction, with the durations looked up |
| Asap.AsapTotal | test/python/transpiler/test_scheduling_padding_pass.py:741-742 | the ASAP circuit duration is the latest end of any instruction |
| Asap.AsapRespects | test/python/transpiler/test_scheduling_padding_pass.py:91-820 | the ASAP schedule respects the timing constraints: within the circuit's duration and at or after 0, qubits exclusive, reads after writes, writes in order, reads in order, reads before an overwrite |
| Asap.AsapEarliest | test/python/transpiler/test_scheduling_padding_pass.py:364-374 | an instruction on qubits only starts at 0 or exactly when an earlier instruction on one of its qubits ends |
| Asap.AsapScheduleAnalysis | test/python/transpiler/test_scheduling_padding_pass.py:822-848 | succeeds if and only if every duration resolves and every condition is supported, and then returns the ASAP schedule; otherwise reports the first offending instruction |
| Asap.PlaceAll | test/python/transpiler/test_scheduling_padding_pass.py:91-131 | the loop over the instructions computes the ASAP schedule, or reports the first unsupported conditional |
| Alap.StepFacts | test/python/transpiler/test_scheduling_padding_pass.py:442-526 | one ALAP placement, in time counted back from the end: qubits as for ASAP, a measure's clbits are freed `clbit_write_latency` before its end, and a conditional's bits stay busy `conditional_latency` beyond it |
| Alap.RunQubitsExclusive | test/python/transpiler/test_scheduling_padding_pass.py:312-362 | instructions sharing a qubit keep their order, and neither overlaps the other, when counted back from the end |
| Alap.Flip | test/python/transpiler/test_scheduling_padding_pass.py:352-362 | every start is the circuit's duration minus the instruction's distance from the end minus its duration |
| Alap.Schedule | test/python/transpiler/test_scheduling_padding_pass.py:352-362 | one start time per instruction, with the durations looked up |
| Alap.ScheduleWithinSpan | test/python/transpiler/test_scheduling_padding_pass.py:744-770 | every ALAP instruction starts at or after 0 and ends by the circuit's end |
| Alap.RunReadsInOrder | test/python/transpiler/test_scheduling_padding_pass.py:773-820 | in time counted back from the end, of two conditional instructions reading a clbit that nothing writes between them, the later ends at least `conditional_latency` before the earlier |
| Alap.RunReadsBeforeWrite | test/python/transpiler/test_scheduling_padding_pass.py:263-310 | in time counted back from the end, a measure overwriting a clbit read by an earlier conditional instruction, with no write between, ends no sooner than `clbit_write_latency` before that instruction ends |
| Alap.AlapTotal | test/python/transpiler/test_scheduling_padding_pass.py:744-770 | the ALAP circuit duration is the latest end of any instruction, since the last instruction ends at the very end |
| Alap.AlapRespects | test/python/transpiler/test_scheduling_padding_pass.py:91-820 | the ALAP schedule respects the same timing constraints as the ASAP one |
| Alap.AlapLatest | test/python/transpiler/test_scheduling_padding_pass.py:352-362 | an instruction on qubits only ends when the circuit ends, or exactly when a later instruction on one of its qubits starts |
| Alap.AlapScheduleAnalysis | test/python/transpiler/test_scheduling_padding_pass.py:39-59 | succeeds if and only if every duration resolves and every condition is supported, and then returns the ALAP schedule; otherwise reports the offending instruction |
| Alap.PlaceAll | test/python/transpiler/test_scheduling_padding_pass.py:352-362 | the backward loop computes the ALAP schedule, or reports the last unsupported conditional |
| Alap.Turn | test/python/transpiler/test_scheduling_padding_pass.py:352-362 | the loop turning distances from the end into start times computes `Flip` |
| Duality.Mirror | test/python/transpiler/test_scheduling_padding_pass.py:55-56 | reading a schedule backwards: the durations reversed and every start taken from the end |
| Duality.MirrorInvolutive | test/python/transpiler/test_scheduling_padding_pass.py:55-56 | mirroring twice gives the schedule back |
| Duality.MirrorExclusive | test/python/transpiler/test_scheduling_padding_pass.py:55-56 | mirroring keeps instructions on a common qubit apart |
| Duality.StepsAgree | test/python/transpiler/test_scheduling_padding_pass.py:39-59 | without conditions and with no write latency, one ALAP step and one ASAP step place an instruction alike |
| Duality.RunsMirror | test/python/transpiler/test_scheduling_padding_pass.py:39-59 | the ALAP pass over a circuit computes the ASAP pass over its reverse |
| Duality.FlipIsMirror | test/python/transpiler/test_scheduling_padding_pass.py:39-59 | flipping the reversed ASAP starts is mirroring the ASAP schedule |
| Duality.AlapIsMirroredAsap | test/python/transpiler/test_scheduling_padding_pass.py:39-88 | for every unconditional circuit with no write latency, the ALAP schedule is the mirrored ASAP schedule of the reversed circuit |
| Padding.FirstUnscheduled | test/python/transpiler/test_scheduling_padding_pass.py:850-858 | the first instruction without a start time has none, and every earlier one has one |
| Padding.StartTimes | test/python/transpiler/test_scheduling_padding_pass.py:51-52 | the start times a schedule attaches to the circuit give every instruction its start |
| Padding.FirstUnscheduledIs | test/python/transpiler/test_scheduling_padding_pass.py:850-858 | an instruction without a start time whose predecessors all have one is the first unscheduled one |
| Padding.PadDelay | test/python/transpiler/test_scheduling_padding_pass.py:51-52 | the pass: collect the start times or fail, place every instruction, then fill the end if asked; it computes `Pad` |
| Padding.CollectStarts | test/python/transpiler/test_scheduling_padding_pass.py:850-858 | succeeds if and only if every instruction has a start time, and returns them; otherwise names the first instruction without one |
| Padding.CircuitDuration | test/python/transpiler/test_scheduling_padding_pass.py:741-742 | the loop computes the latest end of any instruction |
| Padding.PadAll | test/python/transpiler/test_scheduling_padding_pass.py:312-374 | the loop over the instructions places each one in program order |
| Padding.FillAll | test/python/transpiler/test_scheduling_padding_pass.py:124-131 | the loop over the qubits fills each one up to the circuit's end |
| Padding.Fill | test/python/transpiler/test_scheduling_padding_pass.py:124-131 | filling one qubit's gap |
| Padding.PlaceAt | test/python/transpiler/test_scheduling_padding_pass.py:124-131 | the loop over one instruction's qubits pads each, then emits the instruction |
| Padding.TrackAppend | test/python/transpiler/test_scheduling_padding_pass.py:124-131 | the instructions on one qubit of a concatenation are those of each part, in order |
| Padding.TrackPrefix | test/python/transpiler/test_scheduling_padding_pass.py:124-131 | one more emitted instruction adds itself to the track of each of its qubits and to no other |
| Padding.PadOfSchedule | test/python/transpiler/test_scheduling_padding_pass.py:51-52 | padding a scheduled circuit gives the placed instructions, then the end gaps when `fill_very_end` is set, and lasts the latest end of any instruction |
| Padding.PadGapFree | test/python/transpiler/test_scheduling_padding_pass.py:91-440 | for a schedule that keeps qubits exclusive, padding succeeds, lasts at least every instruction's end, and covers every delay-capable qubit from 0 to the end without gap or overlap |
| Padding.PadFailure | test/python/transpiler/test_scheduling_padding_pass.py:850-858 | padding fails if and only if there is no schedule or some instruction has no start time; with no schedule the error says so, otherwise it names the first unscheduled instruction |
| Padding.PadKeepsOps | test/python/transpiler/test_scheduling_padding_pass.py:677-741 | padding keeps every input instruction except the delays, in order, at its start time and duration, and everything it adds is a delay on a delay-capable qubit |
| Padding.PadFillVeryEnd | test/python/transpiler/test_scheduling_padding_pass.py:860-887 | padding with `fill_very_end` gives the same circuit and duration as without it, plus delays that all end at the circuit's end |
| Pipeline.RespectedPadsGapFree | test/python/transpiler/test_scheduling_padding_pass.py:91-593 | any schedule that respects the timing constraints pads into gap-free qubit timelines |
| Pipeline.AsapPaddedGapFree | test/python/transpiler/test_scheduling_padding_pass.py:364-374 | ASAP followed by padding succeeds and leaves every delay-capable qubit busy from 0 to the end |
| Pipeline.AlapPaddedGapFree | test/python/transpiler/test_scheduling_padding_pass.py:352-362 | ALAP followed by padding succeeds and leaves every delay-capable qubit busy from 0 to the end |
| ReverseAgreement.ForwardDurations | test/python/transpiler/test_scheduling_padding_pass.py:47-49 | the durations of h, delay(500), cx, barrier and the two measures under the table |
| ReverseAgreement.ForwardTargetDurations | test/python/transpiler/test_scheduling_padding_pass.py:69-78 | the same durations from the target's per-qubit entries |
| ReverseAgreement.ForwardAlap | test/python/transpiler/test_scheduling_padding_pass.py:39-52 | the ALAP start times and duration of the circuit |
| ReverseAgreement.ForwardAlapPadded | test/python/transpiler/test_scheduling_padding_pass.py:51-52 | the padded ALAP circuit |
| ReverseAgreement.BackwardAsap | test/python/transpiler/test_scheduling_padding_pass.py:54-55 | the ASAP start times and duration of the reversed circuit |
| ReverseAgreement.BackwardAsapPadded | test/python/transpiler/test_scheduling_padding_pass.py:54-55 | the padded ASAP circuit of the reversed circuit |
| ReverseAgreement.ReverseScheduleAgreement | test/python/transpiler/test_scheduling_padding_pass.py:39-59 | the ALAP schedule of the circuit is the mirrored ASAP schedule of its reverse |
| ReverseAgreement.ReversePadAgreement | test/python/transpiler/test_scheduling_padding_pass.py:39-88 | both paddings succeed with the same duration, and on each qubit the padded ALAP circuit is the padded ASAP circuit of the reverse, read backwards |
| MeasureThenConditional.CondDurations | test/python/transpiler/test_scheduling_padding_pass.py:120 | the durations of the measure and the conditional x |
| MeasureThenConditional.CondAsap | test/python/transpiler/test_scheduling_padding_pass.py:115-129 | ASAP: the conditional x starts when the measure ends, at 1000 |
| MeasureThenConditional.CondAlap | test/python/transpiler/test_scheduling_padding_pass.py:115-129 | ALAP gives the same start times |
| MeasureThenConditional.CondAsapPadded | test/python/transpiler/test_scheduling_padding_pass.py:124-131 | the padded ASAP circuit: a 1000 delay on q1 and a trailing 200 on q0 |
| MeasureThenConditional.CondAlapPadded | test/python/transpiler/test_scheduling_padding_pass.py:124-131 | the padded ALAP circuit is the same |
| MeasureAfterMeasure.TwiceDurations | test/python/transpiler/test_scheduling_padding_pass.py:161 | the durations of x and the two measures |
| MeasureAfterMeasure.TwiceAsap | test/python/transpiler/test_scheduling_padding_pass.py:156-170 | ASAP: the second measure starts when the first ends, at 1200 |
| MeasureAfterMeasure.TwiceAlap | test/python/transpiler/test_scheduling_padding_pass.py:156-170 | ALAP gives the same start times |
| MeasureAfterMeasure.TwiceAsapPadded | test/python/transpiler/test_scheduling_padding_pass.py:165-172 | the padded ASAP circuit: a 1200 delay on q1 and a trailing 1000 on q0 |
| MeasureAfterMeasure.TwiceAlapPadded | test/python/transpiler/test_scheduling_padding_pass.py:165-172 | the padded ALAP circuit is the same |
| ConditionalsOnTwoQubits.TwoCondDurations | test/python/transpiler/test_scheduling_padding_pass.py:210 | the durations of the measure and the two conditional x gates |
| ConditionalsOnTwoQubits.TwoCondAsap | test/python/transpiler/test_scheduling_padding_pass.py:203-222 | ASAP: both conditional x gates start at 1000, when the measure ends |
| ConditionalsOnTwoQubits.TwoCondAlap | test/python/transpiler/test_scheduling_padding_pass.py:203-222 | ALAP gives the same start times |
| ConditionalsOnTwoQubits.TwoCondAsapPadded | test/python/transpiler/test_scheduling_padding_pass.py:214-224 | the padded ASAP circuit |
| ConditionalsOnTwoQubits.TwoCondAlapPadded | test/python/transpiler/test_scheduling_padding_pass.py:214-224 | the padded ALAP circuit is the same |
| ShorterMeasure.ShortDurations | test/python/transpiler/test_scheduling_padding_pass.py:252 | qubit-specific measure durations: 1000 on q0, 700 on q1 |
| ShorterMeasure.ShortAsap | test/python/transpiler/test_scheduling_padding_pass.py:248-260 | ASAP: the shorter second measure starts at 1000 |
| ShorterMeasure.ShortAlap | test/python/transpiler/test_scheduling_padding_pass.py:248-260 | ALAP gives the same start times |
| ShorterMeasure.ShortAsapPadded | test/python/transpiler/test_scheduling_padding_pass.py:256-262 | the padded ASAP circuit: a 1000 delay on q1 and a trailing 700 on q0 |
| ShorterMeasure.ShortAlapPadded | test/python/transpiler/test_scheduling_padding_pass.py:256-262 | the padded ALAP circuit is the same |
| MeasureAfterConditional.LateDurations | test/python/transpiler/test_scheduling_padding_pass.py:296 | the durations of the two measures and the conditional x |
| MeasureAfterConditional.LateAsap | test/python/transpiler/test_scheduling_padding_pass.py:290-308 | ASAP: the conditional x and the second measure both start at 1000 |
| MeasureAfterConditional.LateAlap | test/python/transpiler/test_scheduling_padding_pass.py:290-308 | ALAP gives the same start times |
| MeasureAfterConditional.LateAsapPadded | test/python/transpiler/test_scheduling_padding_pass.py:300-310 | the padded ASAP circuit, with trailing delays of 1000 on q0 and 800 on q1 |
| MeasureAfterConditional.LateAlapPadded | test/python/transpiler/test_scheduling_padding_pass.py:300-310 | the padded ALAP circuit is the same |
| ParallelGates.ParDurations | test/python/transpiler/test_scheduling_padding_pass.py:349-351 | qubit-specific x durations, 200 on q0 and 400 on q1 |
| ParallelGates.ParAsap | test/python/transpiler/test_scheduling_padding_pass.py:343-374 | ASAP: the short x's measure starts right after it, at 200 |
| ParallelGates.ParAlap | test/python/transpiler/test_scheduling_padding_pass.py:343-362 | ALAP: the short x starts at 200, so both measures start at 400 |
| ParallelGates.ParAsapPadded | test/python/transpiler/test_scheduling_padding_pass.py:367-374 | the padded ASAP circuit: the idle 200 on q0 comes after its measure |
| ParallelGates.ParAlapPadded | test/python/transpiler/test_scheduling_padding_pass.py:355-362 | the padded ALAP circuit: the idle 200 on q0 comes before its x |
| ParallelGatesBarrier.ParBDurations | test/python/transpiler/test_scheduling_padding_pass.py:413-415 | the durations, the barrier lasting 0 |
| ParallelGatesBarrier.ParBAsap | test/python/transpiler/test_scheduling_padding_pass.py:406-440 | ASAP: the barrier waits for the longer x, so both measures start at 400 |
| ParallelGatesBarrier.ParBAlap | test/python/transpiler/test_scheduling_padding_pass.py:406-427 | ALAP gives the barrier at 400 and the short x at 200 |
| ParallelGatesBarrier.ParBAsapPadded | test/python/transpiler/test_scheduling_padding_pass.py:432-440 | the padded ASAP circuit: the idle 200 on q0 sits between its x and the barrier |
| ParallelGatesBarrier.ParBAlapPadded | test/python/transpiler/test_scheduling_padding_pass.py:419-427 | the padded ALAP circuit: the idle 200 on q0 comes before its x |
| EdgeLocking.EdgeDurations | test/python/transpiler/test_scheduling_padding_pass.py:489 | the durations of the two measures and the conditional x |
| EdgeLocking.EdgeAsap | test/python/transpiler/test_scheduling_padding_pass.py:483-516 | ASAP with write latency 1000: the second measure starts at 0, before the conditional x at 1000 |
| EdgeLocking.EdgeAlap | test/python/transpiler/test_scheduling_padding_pass.py:483-526 | ALAP with write latency 1000: the second measure starts at 200 |
| EdgeLocking.EdgeAsapPadded | test/python/transpiler/test_scheduling_padding_pass.py:508-516 | the padded ASAP circuit: a trailing 200 after the second measure |
| EdgeLocking.EdgeAlapPadded | test/python/transpiler/test_scheduling_padding_pass.py:518-526 | the padded ALAP circuit: a leading 200 before the second measure |
| ActiveReset.ResetDurations | test/python/transpiler/test_scheduling_padding_pass.py:557 | the durations of the three measures and three conditional x gates |
| ActiveReset.Reset100Asap | test/python/transpiler/test_scheduling_padding_pass.py:528-593 | ASAP with latencies (write 100, conditional 200): each x starts 200 after its measure |
| ActiveReset.Reset100Alap | test/python/transpiler/test_scheduling_padding_pass.py:528-593 | ALAP gives the same start times |
| ActiveReset.Reset100AsapPadded | test/python/transpiler/test_scheduling_padding_pass.py:575-592 | the padded ASAP circuit: a 200 delay between each measure and its x |
| ActiveReset.Reset100AlapPadded | test/python/transpiler/test_scheduling_padding_pass.py:575-593 | the padded ALAP circuit is the same |
| ActiveReset.Reset500Asap | test/python/transpiler/test_scheduling_padding_pass.py:528-593 | ASAP with latencies (write 500, conditional 0): each x starts when its measure ends |
| ActiveReset.Reset500Alap | test/python/transpiler/test_scheduling_padding_pass.py:528-593 | ALAP gives the same start times |
| ActiveReset.Reset500AsapPadded | test/python/transpiler/test_scheduling_padding_pass.py:575-592 | the padded ASAP circuit has no delay at all |
| ActiveReset.Reset500AlapPadded | test/python/transpiler/test_scheduling_padding_pass.py:575-593 | the padded ALAP circuit is the same |
| ActiveReset.Reset1000Asap | test/python/transpiler/test_scheduling_padding_pass.py:528-593 | ASAP with latencies (write 1000, conditional 200): each x starts 200 after its measure |
| ActiveReset.Reset1000Alap | test/python/transpiler/test_scheduling_padding_pass.py:528-593 | ALAP gives the same start times |
| ActiveReset.Reset1000AsapPadded | test/python/transpiler/test_scheduling_padding_pass.py:575-592 | the padded ASAP circuit: a 200 delay between each measure and its x |
| ActiveReset.Reset1000AlapPadded | test/python/transpiler/test_scheduling_padding_pass.py:575-593 | the padded ALAP circuit is the same |
| RandomCircuit.RandomDurations | test/python/transpiler/test_scheduling_padding_pass.py:694-696 | the durations of the eleven instructions, delays and barrier included |
| RandomCircuit.RandomAsap | test/python/transpiler/test_scheduling_padding_pass.py:677-742 | ASAP with latencies (write 100, conditional 200): every start time, and a duration of 3100 |
| RandomCircuit.RandomAlap | test/python/transpiler/test_scheduling_padding_pass.py:677-770 | ALAP with the same latencies: every start time, and a duration of 3100 |
| RandomCircuit.RandomAsapPadded | test/python/transpiler/test_scheduling_padding_pass.py:714-742 | the padded ASAP circuit, lasting 3100 |
| RandomCircuit.RandomAlapPadded | test/python/transpiler/test_scheduling_padding_pass.py:744-770 | the padded ALAP circuit, lasting 3100 |
| ConditionalOrder.OrderDurations | test/python/transpiler/test_scheduling_padding_pass.py:808 | the durations of the delay and the two conditional x gates |
| ConditionalOrder.OrderAsap | test/python/transpiler/test_scheduling_padding_pass.py:801-820 | ASAP: the conditional x on q1 waits for the earlier conditional on the same clbit and starts at 100 |
| ConditionalOrder.OrderAsapPadded | test/python/transpiler/test_scheduling_padding_pass.py:812-820 | the padded circuit: a 100 delay on each qubit before its x |
| Calibrated.CalDurations | test/python/transpiler/test_scheduling_padding_pass.py:824-834 | the calibrated x on q0 lasts 300, the x on q1 keeps the table's 160 |
| Calibrated.CalAsap | test/python/transpiler/test_scheduling_padding_pass.py:822-848 | ASAP with the calibrated durations: the first cx starts at 300 |
| Calibrated.CalAsapPadded | test/python/transpiler/test_scheduling_padding_pass.py:838-848 | the padded circuit: 300 on q1 before the first cx, 160 on q0 before the second |
| NoPadAtEnd.OpenDurations | test/python/transpiler/test_scheduling_padding_pass.py:878 | the durations of the delay, x and measure |
| NoPadAtEnd.OpenAsap | test/python/transpiler/test_scheduling_padding_pass.py:873-887 | ASAP: the measure starts at 100, after the input delay |
| NoPadAtEnd.OpenAsapPadded | test/python/transpiler/test_scheduling_padding_pass.py:880-887 | padding without `fill_very_end` gives back the input circuit, qubit by qubit |
| TargetWithoutDelay.NoDelayDurations | test/python/transpiler/test_scheduling_padding_pass.py:897-898 | the cx on (1, 2) lasts the target's 1000 |
| TargetWithoutDelay.NoDelayAsap | test/python/transpiler/test_scheduling_padding_pass.py:889-904 | ASAP: the cx starts at 0 and the circuit lasts 1000 |
| TargetWithoutDelay.NoDelayAlap | test/python/transpiler/test_scheduling_padding_pass.py:889-904 | ALAP gives the same |
| TargetWithoutDelay.NoDelayAsapPadded | test/python/transpiler/test_scheduling_padding_pass.py:901-904 | padding inserts nothing on qubit 0, where the target has no delay |
| TargetWithoutDelay.NoDelayAlapPadded | test/python/transpiler/test_scheduling_padding_pass.py:901-904 | the same after ALAP |

## Left out

- The implementations of `ASAPScheduleAnalysis`, `ALAPScheduleAnalysis`, `SetIOLatency`, `PadDelay` and `InstructionDurations` are not part of this model. Their rules are reconstructed from the expectations of the tests, and each test is a set of concrete lemmas about them.
- `SetIOLatency` has no member of its own: it only stores the two latencies, which is the `Timing.IOLatency` value passed to the scheduling passes.
- The target's `dt` is a float (3.5555555555555554 at `:69`). Durations here are whole numbers of dt, and no conversion from seconds takes place.
- ReverseAgreement.ForwardTargetDurations: takes the target's durations (200, 700 and 1000 at `:70-78`) as whole numbers of dt. In the source they are seconds, which convert to about 56, 197 and 281 dt. The agreement between ALAP and the reversed ASAP holds for any durations, so it does not depend on the conversion.
- Pulse schedules attached as calibrations are kept only as their duration; their pulses are not modelled.
- Circuit equality in Qiskit compares DAGs, so instructions on disjoint wires commute. The model gives the padded circuit as one emitted sequence. The agreement of ALAP with reversed ASAP (`ReverseAgreement.ReversePadAgreement`) is stated per qubit track, where that order is fixed.
- The DAG's topological order is taken to be program order.
- The values of `c_if` conditions are not modelled, only the clbits they read. Scheduling never depends on the value.
- `Duality.AlapIsMirroredAsap` holds only for circuits without conditionals and with zero write latency. For other circuits the measure and conditional rules of the two passes are not mirror images.
- `Asap.RunFrom` and `Alap.RunFrom` place an instruction without qubits at 0. A well-formed circuit has no such instruction, so the passes never reach that branch.
- The `DeprecationWarning` raised by `c_if` and `add_calibration` is not modelled.
- `PassManager` plumbing is not modelled: each scenario applies the passes directly.
- test/python/qobj/test_pulse_converter.py is not part of this model. It is float and complex valued, and it relies on library classes that are not shown.
