/** As-late-as-possible scheduling. The instructions are visited from the last to
    the first, in time counted back from the end of the circuit: each one is
    placed as soon, in that reversed time, as the instructions after it allow.
    Once the circuit's duration is known, every start is turned around against it. */
module Alap {
  import opened Circuits
  import opened Timing
  import opened Durations
  import opened Constraints

  /** The ALAP rule for one instruction of duration `dur`. `a` tells, per wire, how
      long before the end of the circuit the wire is next needed. In the result,
      `start` is how long before the end the instruction ends, and `start + dur`
      how long before the end it starts. */
  function Step(a: Avail, op: Op, dur: nat, lat: IOLatency): (p: Placed)
    requires Schedulable(op)
  {
    match op.kind
    case Measure => MeasureStep(a, op, dur, lat)
    case Barrier => BarrierStep(a, op, dur)
    case _ =>
      if |op.condition| > 0 then ConditionalStep(a, op, dur, lat) else GateStep(a, op, dur)
  }

  /** A measure waits for its qubits and its clbits; a clbit is needed again
      `clbitWrite` before the measure's end. */
  function MeasureStep(a: Avail, op: Op, dur: nat, lat: IOLatency): (p: Placed)
    requires op.kind.Measure? && Schedulable(op)
  {
    var qs := QubitWires(op.qubits);
    var cs := ClbitWires(op.clbits);
    var t0 := Max(MaxOver(a, qs), MaxOver(a, cs));
    Placed(t0, SetAll(SetAll(a, cs, t0 + dur - lat.clbitWrite), qs, t0 + dur))
  }

  lemma MeasureStepFacts(a: Avail, op: Op, dur: nat, lat: IOLatency, p: Placed)
    requires op.kind.Measure? && Schedulable(op)
    requires p == MeasureStep(a, op, dur, lat)
    ensures forall q :: q in op.qubits ==> Get(a, Qubit(q)) <= p.start
    ensures forall q :: Get(p.avail, Qubit(q)) == if q in op.qubits then p.start + dur else Get(a, Qubit(q))
    ensures forall b :: b in op.clbits ==> Get(a, Clbit(b)) <= p.start
    ensures forall b :: (Get(p.avail, Clbit(b)) ==
      if b in op.clbits then p.start + dur - lat.clbitWrite else Get(a, Clbit(b)))
  {
    var qs := QubitWires(op.qubits);
    var cs := ClbitWires(op.clbits);
    var t1 := p.start + dur;
    var a1 := SetAll(a, cs, t1 - lat.clbitWrite);
    assert p.start == Max(MaxOver(a, qs), MaxOver(a, cs)) && p.avail == SetAll(a1, qs, t1);
    MaxOverQubits(a, op.qubits);
    MaxOverClbits(a, op.clbits);
    SetClbits(a, op.clbits, t1 - lat.clbitWrite);
    SetQubits(a1, op.qubits, t1);
  }

  /** A barrier waits for all its wires and holds its qubits. */
  function BarrierStep(a: Avail, op: Op, dur: nat): (p: Placed)
    requires op.kind.Barrier? && Schedulable(op)
  {
    var qs := QubitWires(op.qubits);
    var t0 := if op.clbits == [] then MaxOver(a, qs) else Max(MaxOver(a, qs), MaxOver(a, ClbitWires(op.clbits)));
    Placed(t0, SetAll(a, qs, t0 + dur))
  }

  lemma BarrierStepFacts(a: Avail, op: Op, dur: nat, p: Placed)
    requires op.kind.Barrier? && Schedulable(op)
    requires p == BarrierStep(a, op, dur)
    ensures forall q :: q in op.qubits ==> Get(a, Qubit(q)) <= p.start
    ensures forall q :: Get(p.avail, Qubit(q)) == if q in op.qubits then p.start + dur else Get(a, Qubit(q))
    ensures forall b :: Get(p.avail, Clbit(b)) == Get(a, Clbit(b))
    ensures op.clbits == [] ==> exists q :: q in op.qubits && Get(a, Qubit(q)) == p.start
  {
    var qs := QubitWires(op.qubits);
    assert p.start >= MaxOver(a, qs);
    assert op.clbits == [] ==> p.start == MaxOver(a, qs);
    MaxOverQubits(a, op.qubits);
    SetQubits(a, op.qubits, p.start + dur);
  }

  /** An unconditional gate or delay waits for its qubits only. */
  function GateStep(a: Avail, op: Op, dur: nat): (p: Placed)
    requires Schedulable(op)
  {
    var qs := QubitWires(op.qubits);
    var t0 := MaxOver(a, qs);
    Placed(t0, SetAll(a, qs, t0 + dur))
  }

  lemma GateStepFacts(a: Avail, op: Op, dur: nat, p: Placed)
    requires Schedulable(op)
    requires p == GateStep(a, op, dur)
    ensures forall q :: q in op.qubits ==> Get(a, Qubit(q)) <= p.start
    ensures forall q :: Get(p.avail, Qubit(q)) == if q in op.qubits then p.start + dur else Get(a, Qubit(q))
    ensures forall b :: Get(p.avail, Clbit(b)) == Get(a, Clbit(b))
    ensures exists q :: q in op.qubits && Get(a, Qubit(q)) == p.start
  {
    MaxOverQubits(a, op.qubits);
    SetQubits(a, op.qubits, p.start + dur);
  }

  /** A conditional gate waits for its qubits, and may overlap the wait for its
      condition clbits by its own duration; the clbits are read `conditional`
      before the gate starts. */
  function ConditionalStep(a: Avail, op: Op, dur: nat, lat: IOLatency): (p: Placed)
    requires Schedulable(op) && |op.condition| > 0
  {
    var qs := QubitWires(op.qubits);
    var cs := ClbitWires(op.condition);
    var t0 := Max(MaxOver(a, qs), MaxOver(a, cs) - dur);
    var t1 := t0 + dur;
    Placed(t0, SetAll(SetAll(a, cs, t1 + lat.conditional), qs, t1))
  }

  lemma ConditionalStepFacts(a: Avail, op: Op, dur: nat, lat: IOLatency, p: Placed)
    requires Schedulable(op) && |op.condition| > 0
    requires p == ConditionalStep(a, op, dur, lat)
    ensures forall q :: q in op.qubits ==> Get(a, Qubit(q)) <= p.start
    ensures forall q :: Get(p.avail, Qubit(q)) == if q in op.qubits then p.start + dur else Get(a, Qubit(q))
    ensures forall b :: b in op.condition ==>
      Get(a, Clbit(b)) <= p.start + dur && Get(p.avail, Clbit(b)) == p.start + dur + lat.conditional
    ensures forall b :: b !in op.condition ==> Get(p.avail, Clbit(b)) == Get(a, Clbit(b))
  {
    var qs := QubitWires(op.qubits);
    var cs := ClbitWires(op.condition);
    var t1 := p.start + dur;
    var a1 := SetAll(a, cs, t1 + lat.conditional);
    assert p.start == Max(MaxOver(a, qs), MaxOver(a, cs) - dur) && p.avail == SetAll(a1, qs, t1);
    MaxOverQubits(a, op.qubits);
    MaxOverClbits(a, op.condition);
    SetClbits(a, op.condition, t1 + lat.conditional);
    SetQubits(a1, op.qubits, t1);
  }

  /** What the rule of the instruction's kind guarantees. */
  lemma StepFacts(a: Avail, op: Op, dur: nat, lat: IOLatency)
    requires Schedulable(op)
    ensures var p := Step(a, op, dur, lat);
      && (forall q :: q in op.qubits ==> Get(a, Qubit(q)) <= p.start)
      && (forall q :: Get(p.avail, Qubit(q)) == if q in op.qubits then p.start + dur else Get(a, Qubit(q)))
      && (op.kind.Measure? ==> forall b :: b in op.clbits ==> Get(a, Clbit(b)) <= p.start)
      && (op.kind.Measure? ==> forall b :: (Get(p.avail, Clbit(b)) ==
           if b in op.clbits then p.start + dur - lat.clbitWrite else Get(a, Clbit(b))))
      && (Conditional(op) ==> forall b :: b in op.condition ==>
           Get(a, Clbit(b)) <= p.start + dur && Get(p.avail, Clbit(b)) == p.start + dur + lat.conditional)
      && (Conditional(op) ==> forall b :: b !in op.condition ==> Get(p.avail, Clbit(b)) == Get(a, Clbit(b)))
      && (!op.kind.Measure? && !Conditional(op) ==> forall b :: Get(p.avail, Clbit(b)) == Get(a, Clbit(b)))
      && (QubitsOnly(op) ==> exists q :: q in op.qubits && Get(a, Qubit(q)) == p.start)
  {
    var p := Step(a, op, dur, lat);
    match op.kind
    case Measure => MeasureStepFacts(a, op, dur, lat, p);
    case Barrier => BarrierStepFacts(a, op, dur, p);
    case _ =>
      if |op.condition| > 0 {
        ConditionalStepFacts(a, op, dur, lat, p);
      } else {
        GateStepFacts(a, op, dur, p);
      }
  }

  /** An instruction waits for every one of its qubits and holds them for its
      duration; the other qubits keep their time. */
  lemma StepQubits(a: Avail, op: Op, dur: nat, lat: IOLatency)
    requires Schedulable(op)
    ensures forall q :: q in op.qubits ==> Get(a, Qubit(q)) <= Step(a, op, dur, lat).start
    ensures forall q :: (Get(Step(a, op, dur, lat).avail, Qubit(q)) ==
      if q in op.qubits then Step(a, op, dur, lat).start + dur else Get(a, Qubit(q)))
  {
    StepFacts(a, op, dur, lat);
  }

  /** A measure ends no sooner, in reversed time, than its clbits are needed, and
      leaves them needed `clbitWrite` before its end. */
  lemma StepMeasure(a: Avail, op: Op, dur: nat, lat: IOLatency)
    requires Schedulable(op) && op.kind.Measure?
    ensures forall b :: b in op.clbits ==> Get(a, Clbit(b)) <= Step(a, op, dur, lat).start
    ensures forall b :: (Get(Step(a, op, dur, lat).avail, Clbit(b)) ==
      if b in op.clbits then Step(a, op, dur, lat).start + dur - lat.clbitWrite else Get(a, Clbit(b)))
  {
    StepFacts(a, op, dur, lat);
  }

  /** A conditional instruction leaves its condition clbits needed `conditional`
      before it starts. */
  lemma StepConditional(a: Avail, op: Op, dur: nat, lat: IOLatency)
    requires Schedulable(op) && Conditional(op)
    ensures forall b :: b in op.condition ==>
      && Get(a, Clbit(b)) <= Step(a, op, dur, lat).start + dur
      && Get(Step(a, op, dur, lat).avail, Clbit(b)) == Step(a, op, dur, lat).start + dur + lat.conditional
    ensures forall b :: b !in op.condition ==> Get(Step(a, op, dur, lat).avail, Clbit(b)) == Get(a, Clbit(b))
  {
    StepFacts(a, op, dur, lat);
  }

  /** A clbit the instruction does not write is needed no later than before. */
  lemma StepClbitsMonotone(a: Avail, op: Op, dur: nat, lat: IOLatency)
    requires Schedulable(op)
    ensures forall b :: !Writes(op, b) ==> Get(a, Clbit(b)) <= Get(Step(a, op, dur, lat).avail, Clbit(b))
  {
    StepFacts(a, op, dur, lat);
  }

  /** An instruction placed on its qubits alone ends, in reversed time, exactly
      when one of its qubits is next needed. */
  lemma StepTight(a: Avail, op: Op, dur: nat, lat: IOLatency)
    requires Schedulable(op) && QubitsOnly(op)
    ensures exists q :: q in op.qubits && Get(a, Qubit(q)) == Step(a, op, dur, lat).start
  {
    StepFacts(a, op, dur, lat);
  }

  /** Visit `ops` from the last to the first: the resulting `starts[i]` is how long
      before the end of the circuit instruction `i` ends. */
  function Run(ops: seq<Op>, durs: seq<nat>, lat: IOLatency): (s: State)
    requires |durs| == |ops| && AllSchedulable(ops)
    ensures |s.starts| == |ops|
  {
    if ops == [] then State(map[], [])
    else
      assert forall i :: 0 <= i < |ops| - 1 ==> ops[1..][i] == ops[i + 1];
      var rest := Run(ops[1..], durs[1..], lat);
      var p := Step(rest.avail, ops[0], durs[0], lat);
      State(p.avail, [p.start] + rest.starts)
  }

  /** Start times counted from the beginning, given how long before the end of a
      circuit of duration `total` each instruction ends. */
  function Flip(ends: seq<int>, durs: seq<nat>, total: int): (r: seq<int>)
    requires |ends| == |durs|
    ensures |r| == |ends|
    ensures forall i :: 0 <= i < |ends| ==> r[i] == total - (ends[i] + durs[i])
    decreases |ends|
  {
    if ends == [] then []
    else
      var rest := Flip(ends[1..], durs[1..], total);
      assert forall i :: 1 <= i < |ends| ==> rest[i - 1] == total - (ends[i] + durs[i]);
      [total - (ends[0] + durs[0])] + rest
  }

  /** The ALAP schedule of a circuit whose durations are known; its duration is
      the latest time any wire is needed. */
  function Schedule(c: Circuit, durs: seq<nat>, lat: IOLatency): (s: Timing.Schedule)
    requires WellFormed(c) && |durs| == |c.ops|
    ensures Shaped(c.ops, s) && s.durations == durs
  {
    WellFormedSchedulable(c);
    var st := Run(c.ops, durs, lat);
    var total := Span(st.avail, c.numQubits, c.numClbits);
    Timing.Schedule(Flip(st.starts, durs, total), durs, total)
  }

  /** The ALAP rule applied from the table `a`, the last instruction first:
      `Run` read as a right-to-left replay. An instruction the rule cannot place
      (which a well-formed circuit does not have) is skipped at 0. */
  function RunFrom(a: Avail, ops: seq<Op>, durs: seq<nat>, lat: IOLatency): (s: State)
    requires |durs| == |ops|
    ensures |s.starts| == |ops|
    decreases |ops|
  {
    if ops == [] then State(a, [])
    else
      var n := |ops| - 1;
      var p := if Schedulable(ops[n]) then Step(a, ops[n], durs[n], lat) else Placed(0, a);
      var rest := RunFrom(p.avail, ops[..n], durs[..n], lat);
      State(rest.avail, rest.starts + [p.start])
  }

  /** Replaying `xs + ys` is replaying `ys`, then `xs` from where `ys` left the table. */
  lemma {:induction false} RunFromAppend(a: Avail, xs: seq<Op>, dx: seq<nat>, ys: seq<Op>, dy: seq<nat>, lat: IOLatency)
    requires |dx| == |xs| && |dy| == |ys|
    ensures var r2 := RunFrom(a, ys, dy, lat);
      var r1 := RunFrom(r2.avail, xs, dx, lat);
      RunFrom(a, xs + ys, dx + dy, lat) == State(r1.avail, r1.starts + r2.starts)
    decreases |ys|
  {
    if ys == [] {
      assert xs + ys == xs && dx + dy == dx;
      assert RunFrom(a, xs, dx, lat).starts + [] == RunFrom(a, xs, dx, lat).starts;
    } else {
      var n := |ys| - 1;
      var p := if Schedulable(ys[n]) then Step(a, ys[n], dy[n], lat) else Placed(0, a);
      RunFromAppend(p.avail, xs, dx, ys[..n], dy[..n], lat);
      var m := |xs| + n;
      assert (xs + ys)[..m] == xs + ys[..n] && (dx + dy)[..m] == dx + dy[..n];
      assert (xs + ys)[m] == ys[n] && (dx + dy)[m] == dy[n];
      var t2 := RunFrom(p.avail, ys[..n], dy[..n], lat);
      var r1 := RunFrom(t2.avail, xs, dx, lat);
      assert (r1.starts + t2.starts) + [p.start] == r1.starts + (t2.starts + [p.start]);
    }
  }

  /** `Run` and the replay from an empty table agree. */
  lemma {:induction false} RunIsRunFrom(ops: seq<Op>, durs: seq<nat>, lat: IOLatency)
    requires |durs| == |ops| && AllSchedulable(ops)
    ensures Run(ops, durs, lat) == RunFrom(map[], ops, durs, lat)
  {
    if ops != [] {
      assert AllSchedulable(ops[1..]) by {
        assert forall i :: 0 <= i < |ops| - 1 ==> ops[1..][i] == ops[i + 1];
      }
      RunIsRunFrom(ops[1..], durs[1..], lat);
      assert ops == [ops[0]] + ops[1..] && durs == [durs[0]] + durs[1..];
      RunFromAppend(map[], [ops[0]], [durs[0]], ops[1..], durs[1..], lat);
      var rest := RunFrom(map[], ops[1..], durs[1..], lat);
      var p := Step(rest.avail, ops[0], durs[0], lat);
      assert [ops[0]][..0] == [] && [durs[0]][..0] == [];
      assert RunFrom(rest.avail, [ops[0]], [durs[0]], lat) == State(p.avail, [p.start]);
    }
  }

  /** Replaying the instructions before `j` is replaying those from `i`, then
      the ones before `i` from where they left the table. */
  lemma RunFromSplit(a: Avail, ops: seq<Op>, durs: seq<nat>, lat: IOLatency, i: nat, j: nat)
    requires |durs| == |ops| && i <= j <= |ops|
    ensures var r2 := RunFrom(a, ops[i..j], durs[i..j], lat);
      var r1 := RunFrom(r2.avail, ops[..i], durs[..i], lat);
      RunFrom(a, ops[..j], durs[..j], lat) == State(r1.avail, r1.starts + r2.starts)
  {
    assert ops[..j] == ops[..i] + ops[i..j] && durs[..j] == durs[..i] + durs[i..j];
    RunFromAppend(a, ops[..i], durs[..i], ops[i..j], durs[i..j], lat);
  }

  /** A reversed-time replay is fixed by its steps: if each instruction, placed
      on the table the instruction after it left, ends `ends[k]` before the end
      and leaves `avs[k]`, the replay from the last table ends the instructions
      at `ends` and leaves the first table. */
  lemma {:induction false} RunFromSteps(avs: seq<Avail>, ops: seq<Op>, durs: seq<nat>, ends: seq<int>, lat: IOLatency)
    requires |durs| == |ops| && |ends| == |ops| && |avs| == |ops| + 1
    requires forall k :: 0 <= k < |ops| ==>
      Schedulable(ops[k]) && Step(avs[k + 1], ops[k], durs[k], lat) == Placed(ends[k], avs[k])
    ensures RunFrom(avs[|ops|], ops, durs, lat) == State(avs[0], ends)
    decreases |ops|
  {
    if ops != [] {
      var n := |ops| - 1;
      assert forall k :: 0 <= k < n ==> ops[..n][k] == ops[k] && durs[..n][k] == durs[k] && ends[..n][k] == ends[k];
      assert forall k :: 0 <= k <= n ==> avs[..n + 1][k] == avs[k];
      RunFromSteps(avs[..n + 1], ops[..n], durs[..n], ends[..n], lat);
      assert ends == ends[..n] + [ends[n]];
    }
  }

  /** The run over `ops` places the first instruction after the run over the rest. */
  lemma RunFirst(ops: seq<Op>, durs: seq<nat>, lat: IOLatency)
    requires |durs| == |ops| && AllSchedulable(ops) && ops != []
    ensures AllSchedulable(ops[1..])
    ensures Run(ops, durs, lat) ==
      State(Step(Run(ops[1..], durs[1..], lat).avail, ops[0], durs[0], lat).avail,
            [Step(Run(ops[1..], durs[1..], lat).avail, ops[0], durs[0], lat).start] + Run(ops[1..], durs[1..], lat).starts)
  {
    assert forall i :: 0 <= i < |ops| - 1 ==> ops[1..][i] == ops[i + 1];
  }

  /** No qubit is needed before the end, and no instruction ends after it. */
  lemma {:induction false} RunNonNegative(ops: seq<Op>, durs: seq<nat>, lat: IOLatency)
    requires |durs| == |ops| && AllSchedulable(ops)
    ensures forall q :: Get(Run(ops, durs, lat).avail, Qubit(q)) >= 0
    ensures forall i :: 0 <= i < |ops| ==> Run(ops, durs, lat).starts[i] >= 0
  {
    if ops != [] {
      RunFirst(ops, durs, lat);
      var rest := Run(ops[1..], durs[1..], lat);
      RunNonNegative(ops[1..], durs[1..], lat);
      var p := Step(rest.avail, ops[0], durs[0], lat);
      StepQubits(rest.avail, ops[0], durs[0], lat);
      assert p.start >= 0 by {
        assert Get(rest.avail, Qubit(ops[0].qubits[0])) <= p.start;
      }
      var s := Run(ops, durs, lat);
      forall i | 0 <= i < |ops| ensures s.starts[i] >= 0 {
        if i > 0 {
          assert s.starts[i] == rest.starts[i - 1];
        }
      }
    }
  }

  /** A qubit is needed, in reversed time, no sooner than any instruction on it starts. */
  lemma {:induction false} RunQubitsHeld(ops: seq<Op>, durs: seq<nat>, lat: IOLatency)
    requires |durs| == |ops| && AllSchedulable(ops)
    ensures forall i, q :: 0 <= i < |ops| && q in ops[i].qubits ==>
      Run(ops, durs, lat).starts[i] + durs[i] <= Get(Run(ops, durs, lat).avail, Qubit(q))
  {
    if ops != [] {
      RunFirst(ops, durs, lat);
      var rest := Run(ops[1..], durs[1..], lat);
      RunQubitsHeld(ops[1..], durs[1..], lat);
      var p := Step(rest.avail, ops[0], durs[0], lat);
      StepQubits(rest.avail, ops[0], durs[0], lat);
      var s := Run(ops, durs, lat);
      forall i, q | 0 <= i < |ops| && q in ops[i].qubits
        ensures s.starts[i] + durs[i] <= Get(s.avail, Qubit(q))
      {
        if i > 0 {
          assert ops[1..][i - 1] == ops[i] && durs[1..][i - 1] == durs[i] && s.starts[i] == rest.starts[i - 1];
          assert rest.starts[i - 1] + durs[i] <= Get(rest.avail, Qubit(q));
          assert Get(rest.avail, Qubit(q)) <= Get(p.avail, Qubit(q));
        }
      }
    }
  }

  /** Instructions sharing a qubit do not overlap: in reversed time the later one
      ends before the earlier one starts. */
  lemma {:induction false} RunQubitsExclusive(ops: seq<Op>, durs: seq<nat>, lat: IOLatency)
    requires |durs| == |ops| && AllSchedulable(ops)
    ensures forall i, j, q :: 0 <= i < j < |ops| && q in ops[i].qubits && q in ops[j].qubits ==>
      Run(ops, durs, lat).starts[j] + durs[j] <= Run(ops, durs, lat).starts[i]
  {
    if ops != [] {
      RunFirst(ops, durs, lat);
      var rest := Run(ops[1..], durs[1..], lat);
      RunQubitsExclusive(ops[1..], durs[1..], lat);
      RunQubitsHeld(ops[1..], durs[1..], lat);
      var p := Step(rest.avail, ops[0], durs[0], lat);
      StepQubits(rest.avail, ops[0], durs[0], lat);
      var s := Run(ops, durs, lat);
      forall i, j, q | 0 <= i < j < |ops| && q in ops[i].qubits && q in ops[j].qubits
        ensures s.starts[j] + durs[j] <= s.starts[i]
      {
        assert ops[1..][j - 1] == ops[j] && durs[1..][j - 1] == durs[j] && s.starts[j] == rest.starts[j - 1];
        if i == 0 {
          assert rest.starts[j - 1] + durs[j] <= Get(rest.avail, Qubit(q));
        } else {
          assert ops[1..][i - 1] == ops[i] && s.starts[i] == rest.starts[i - 1];
        }
      }
    }
  }

  /** No instruction before `j` writes clbit `b`. */
  predicate NoWriterBefore(ops: seq<Op>, j: nat, b: nat)
    requires j <= |ops|
  {
    forall k :: 0 <= k < j ==> !Writes(ops[k], b)
  }

  /** A clbit that an instruction reads, with no write of it before that
      instruction, is needed no sooner than `conditional` after the read. */
  lemma {:induction false} RunReadBound(ops: seq<Op>, durs: seq<nat>, lat: IOLatency)
    requires |durs| == |ops| && AllSchedulable(ops)
    ensures forall j: nat, b: nat :: j < |ops| && Reads(ops[j], b) && NoWriterBefore(ops, j, b) ==>
      Run(ops, durs, lat).starts[j] + durs[j] + lat.conditional <= Get(Run(ops, durs, lat).avail, Clbit(b))
  {
    if ops != [] {
      RunFirst(ops, durs, lat);
      var rest := Run(ops[1..], durs[1..], lat);
      RunReadBound(ops[1..], durs[1..], lat);
      var p := Step(rest.avail, ops[0], durs[0], lat);
      StepClbitsMonotone(rest.avail, ops[0], durs[0], lat);
      var s := Run(ops, durs, lat);
      forall j: nat, b: nat | j < |ops| && Reads(ops[j], b) && NoWriterBefore(ops, j, b)
        ensures s.starts[j] + durs[j] + lat.conditional <= Get(s.avail, Clbit(b))
      {
        if j == 0 {
          StepConditional(rest.avail, ops[0], durs[0], lat);
        } else {
          assert ops[1..][j - 1] == ops[j] && durs[1..][j - 1] == durs[j] && s.starts[j] == rest.starts[j - 1];
          assert !Writes(ops[0], b);
          assert NoWriterBefore(ops[1..], j - 1, b) by {
            forall k | 0 <= k < j - 1 ensures !Writes(ops[1..][k], b) {
              assert ops[1..][k] == ops[k + 1];
            }
          }
          assert rest.starts[j - 1] + durs[j] + lat.conditional <= Get(rest.avail, Clbit(b));
        }
      }
    }
  }

  /** A clbit that a measure writes, with no write of it before that measure, is
      needed no sooner than `clbitWrite` before the measure's end. */
  lemma {:induction false} RunWriteBound(ops: seq<Op>, durs: seq<nat>, lat: IOLatency)
    requires |durs| == |ops| && AllSchedulable(ops)
    ensures forall k: nat, b: nat :: k < |ops| && Writes(ops[k], b) && NoWriterBefore(ops, k, b) ==>
      Run(ops, durs, lat).starts[k] + durs[k] - lat.clbitWrite <= Get(Run(ops, durs, lat).avail, Clbit(b))
  {
    if ops != [] {
      RunFirst(ops, durs, lat);
      var rest := Run(ops[1..], durs[1..], lat);
      RunWriteBound(ops[1..], durs[1..], lat);
      var p := Step(rest.avail, ops[0], durs[0], lat);
      StepClbitsMonotone(rest.avail, ops[0], durs[0], lat);
      var s := Run(ops, durs, lat);
      forall k: nat, b: nat | k < |ops| && Writes(ops[k], b) && NoWriterBefore(ops, k, b)
        ensures s.starts[k] + durs[k] - lat.clbitWrite <= Get(s.avail, Clbit(b))
      {
        if k == 0 {
          StepMeasure(rest.avail, ops[0], durs[0], lat);
        } else {
          assert ops[1..][k - 1] == ops[k] && durs[1..][k - 1] == durs[k] && s.starts[k] == rest.starts[k - 1];
          assert !Writes(ops[0], b);
          assert NoWriterBefore(ops[1..], k - 1, b) by {
            forall m | 0 <= m < k - 1 ensures !Writes(ops[1..][m], b) {
              assert ops[1..][m] == ops[m + 1];
            }
          }
          assert rest.starts[k - 1] + durs[k] - lat.clbitWrite <= Get(rest.avail, Clbit(b));
        }
      }
    }
  }

  /** Shifting a last-writer relation to the instructions after the first one. */
  lemma LastWriterInRest(ops: seq<Op>, i: nat, j: nat, b: nat)
    requires 0 < i && LastWriterBefore(ops, i, j, b)
    ensures LastWriterBefore(ops[1..], i - 1, j - 1, b)
  {
    assert ops[1..][i - 1] == ops[i];
    forall k | i - 1 < k < j - 1 ensures !Writes(ops[1..][k], b) {
      assert ops[1..][k] == ops[k + 1];
    }
  }

  /** After the first instruction writes a clbit, none of the instructions up to
      `j` does. */
  lemma FirstWriterClear(ops: seq<Op>, j: nat, b: nat)
    requires LastWriterBefore(ops, 0, j, b)
    ensures NoWriterBefore(ops[1..], j - 1, b)
  {
    forall k | 0 <= k < j - 1 ensures !Writes(ops[1..][k], b) {
      assert ops[1..][k] == ops[k + 1];
    }
  }

  /** In reversed time, a conditional instruction starts `conditional` after the
      end of the measure it reads; that is, the measure ends first. */
  lemma {:induction false} RunReadsAfterWrite(ops: seq<Op>, durs: seq<nat>, lat: IOLatency)
    requires |durs| == |ops| && AllSchedulable(ops)
    ensures forall i: nat, j: nat, b: nat :: LastWriterBefore(ops, i, j, b) && j < |ops| && Reads(ops[j], b) ==>
      Run(ops, durs, lat).starts[j] + durs[j] + lat.conditional <= Run(ops, durs, lat).starts[i]
  {
    if ops != [] {
      RunFirst(ops, durs, lat);
      var rest := Run(ops[1..], durs[1..], lat);
      RunReadsAfterWrite(ops[1..], durs[1..], lat);
      RunReadBound(ops[1..], durs[1..], lat);
      var p := Step(rest.avail, ops[0], durs[0], lat);
      var s := Run(ops, durs, lat);
      forall i: nat, j: nat, b: nat | LastWriterBefore(ops, i, j, b) && j < |ops| && Reads(ops[j], b)
        ensures s.starts[j] + durs[j] + lat.conditional <= s.starts[i]
      {
        assert ops[1..][j - 1] == ops[j] && durs[1..][j - 1] == durs[j] && s.starts[j] == rest.starts[j - 1];
        if i == 0 {
          FirstWriterClear(ops, j, b);
          StepMeasure(rest.avail, ops[0], durs[0], lat);
          assert rest.starts[j - 1] + durs[j] + lat.conditional <= Get(rest.avail, Clbit(b));
        } else {
          LastWriterInRest(ops, i, j, b);
          assert s.starts[i] == rest.starts[i - 1];
        }
      }
    }
  }

  /** In reversed time, a measure ends no sooner than `clbitWrite` before the end
      of the next measure writing the same clbit. */
  lemma {:induction false} RunWritesInOrder(ops: seq<Op>, durs: seq<nat>, lat: IOLatency)
    requires |durs| == |ops| && AllSchedulable(ops)
    ensures forall i: nat, k: nat, b: nat :: LastWriterBefore(ops, i, k, b) && k < |ops| && Writes(ops[k], b) ==>
      Run(ops, durs, lat).starts[k] + durs[k] - lat.clbitWrite <= Run(ops, durs, lat).starts[i]
  {
    if ops != [] {
      RunFirst(ops, durs, lat);
      var rest := Run(ops[1..], durs[1..], lat);
      RunWritesInOrder(ops[1..], durs[1..], lat);
      RunWriteBound(ops[1..], durs[1..], lat);
      var p := Step(rest.avail, ops[0], durs[0], lat);
      var s := Run(ops, durs, lat);
      forall i: nat, k: nat, b: nat | LastWriterBefore(ops, i, k, b) && k < |ops| && Writes(ops[k], b)
        ensures s.starts[k] + durs[k] - lat.clbitWrite <= s.starts[i]
      {
        assert ops[1..][k - 1] == ops[k] && durs[1..][k - 1] == durs[k] && s.starts[k] == rest.starts[k - 1];
        if i == 0 {
          FirstWriterClear(ops, k, b);
          StepMeasure(rest.avail, ops[0], durs[0], lat);
          assert rest.starts[k - 1] + durs[k] - lat.clbitWrite <= Get(rest.avail, Clbit(b));
        } else {
          LastWriterInRest(ops, i, k, b);
          assert s.starts[i] == rest.starts[i - 1];
        }
      }
    }
  }

  /** Shifting an unwritten stretch to the instructions after the first one. */
  lemma UnwrittenInRest(ops: seq<Op>, i: nat, j: nat, b: nat)
    requires 0 < i && UnwrittenBetween(ops, i, j, b)
    ensures UnwrittenBetween(ops[1..], i - 1, j - 1, b)
  {
    forall k | i - 1 < k < j - 1 ensures !Writes(ops[1..][k], b) {
      assert ops[1..][k] == ops[k + 1];
    }
  }

  /** Nothing after the first instruction and before `j` writes the clbit. */
  lemma UnwrittenFromFirst(ops: seq<Op>, j: nat, b: nat)
    requires UnwrittenBetween(ops, 0, j, b)
    ensures NoWriterBefore(ops[1..], j - 1, b)
  {
    forall k | 0 <= k < j - 1 ensures !Writes(ops[1..][k], b) {
      assert ops[1..][k] == ops[k + 1];
    }
  }

  /** In reversed time, of two conditional instructions reading a clbit that
      nothing writes between them, the later one ends `conditional` before the
      earlier one does. */
  lemma {:induction false} RunReadsInOrder(ops: seq<Op>, durs: seq<nat>, lat: IOLatency)
    requires |durs| == |ops| && AllSchedulable(ops)
    ensures forall i: nat, j: nat, b: nat :: UnwrittenBetween(ops, i, j, b) && j < |ops| && Reads(ops[i], b) && Reads(ops[j], b) ==>
      Run(ops, durs, lat).starts[j] + durs[j] + lat.conditional <= Run(ops, durs, lat).starts[i] + durs[i]
  {
    if ops != [] {
      RunFirst(ops, durs, lat);
      var rest := Run(ops[1..], durs[1..], lat);
      RunReadsInOrder(ops[1..], durs[1..], lat);
      RunReadBound(ops[1..], durs[1..], lat);
      var p := Step(rest.avail, ops[0], durs[0], lat);
      var s := Run(ops, durs, lat);
      forall i: nat, j: nat, b: nat | UnwrittenBetween(ops, i, j, b) && j < |ops| && Reads(ops[i], b) && Reads(ops[j], b)
        ensures s.starts[j] + durs[j] + lat.conditional <= s.starts[i] + durs[i]
      {
        assert ops[1..][j - 1] == ops[j] && durs[1..][j - 1] == durs[j] && s.starts[j] == rest.starts[j - 1];
        if i == 0 {
          UnwrittenFromFirst(ops, j, b);
          StepConditional(rest.avail, ops[0], durs[0], lat);
          assert rest.starts[j - 1] + durs[j] + lat.conditional <= Get(rest.avail, Clbit(b));
        } else {
          UnwrittenInRest(ops, i, j, b);
          assert ops[1..][i - 1] == ops[i] && durs[1..][i - 1] == durs[i] && s.starts[i] == rest.starts[i - 1];
        }
      }
    }
  }

  /** In reversed time, a measure overwriting a clbit that a conditional
      instruction read before it, with no write between the two, ends no sooner
      than `clbitWrite` before the read ends. */
  lemma {:induction false} RunReadsBeforeWrite(ops: seq<Op>, durs: seq<nat>, lat: IOLatency)
    requires |durs| == |ops| && AllSchedulable(ops)
    ensures forall i: nat, j: nat, b: nat :: UnwrittenBetween(ops, i, j, b) && j < |ops| && Reads(ops[i], b) && Writes(ops[j], b) ==>
      Run(ops, durs, lat).starts[j] + durs[j] - lat.clbitWrite <= Run(ops, durs, lat).starts[i] + durs[i]
  {
    if ops != [] {
      RunFirst(ops, durs, lat);
      var rest := Run(ops[1..], durs[1..], lat);
      RunReadsBeforeWrite(ops[1..], durs[1..], lat);
      RunWriteBound(ops[1..], durs[1..], lat);
      var p := Step(rest.avail, ops[0], durs[0], lat);
      var s := Run(ops, durs, lat);
      forall i: nat, j: nat, b: nat | UnwrittenBetween(ops, i, j, b) && j < |ops| && Reads(ops[i], b) && Writes(ops[j], b)
        ensures s.starts[j] + durs[j] - lat.clbitWrite <= s.starts[i] + durs[i]
      {
        assert ops[1..][j - 1] == ops[j] && durs[1..][j - 1] == durs[j] && s.starts[j] == rest.starts[j - 1];
        if i == 0 {
          UnwrittenFromFirst(ops, j, b);
          StepConditional(rest.avail, ops[0], durs[0], lat);
          assert rest.starts[j - 1] + durs[j] - lat.clbitWrite <= Get(rest.avail, Clbit(b));
        } else {
          UnwrittenInRest(ops, i, j, b);
          assert ops[1..][i - 1] == ops[i] && durs[1..][i - 1] == durs[i] && s.starts[i] == rest.starts[i - 1];
        }
      }
    }
  }

  /** Every instruction of the ALAP schedule lies within the circuit's duration. */
  lemma ScheduleWithinSpan(c: Circuit, durs: seq<nat>, lat: IOLatency)
    requires WellFormed(c) && |durs| == |c.ops|
    ensures WithinSpan(c.ops, Schedule(c, durs, lat))
  {
    WellFormedSchedulable(c);
    var st := Run(c.ops, durs, lat);
    var s := Schedule(c, durs, lat);
    RunNonNegative(c.ops, durs, lat);
    RunQubitsHeld(c.ops, durs, lat);
    SpanFacts(st.avail, c.numQubits, c.numClbits);
    forall i | 0 <= i < |c.ops| ensures 0 <= s.starts[i] && End(s, i) <= s.total {
      assert WellFormedOp(c.ops[i], c.numQubits, c.numClbits);
      var q := c.ops[i].qubits[0];
      assert st.starts[i] + durs[i] <= Get(st.avail, Qubit(q));
      assert InCircuit(Qubit(q), c.numQubits, c.numClbits);
    }
  }

  /** Nothing is needed after the end of the circuit, so the instruction
      placed first, from an empty table, ends at the very end. */
  lemma StepAtEnd(op: Op, dur: nat, lat: IOLatency)
    requires Schedulable(op)
    ensures Step(map[], op, dur, lat).start == 0
  {
    var a: Avail := map[];
    MaxOverFacts(a, QubitWires(op.qubits));
    if |op.clbits| > 0 {
      MaxOverFacts(a, ClbitWires(op.clbits));
    }
    if |op.condition| > 0 {
      MaxOverFacts(a, ClbitWires(op.condition));
    }
  }

  /** In reversed time, the last instruction of the program ends at 0. */
  lemma {:induction false} RunLastAtEnd(ops: seq<Op>, durs: seq<nat>, lat: IOLatency)
    requires |durs| == |ops| && AllSchedulable(ops) && ops != []
    ensures Run(ops, durs, lat).starts[|ops| - 1] == 0
  {
    RunFirst(ops, durs, lat);
    if |ops| == 1 {
      assert Run(ops[1..], durs[1..], lat).avail == map[];
      StepAtEnd(ops[0], durs[0], lat);
    } else {
      RunLastAtEnd(ops[1..], durs[1..], lat);
    }
  }

  /** The ALAP circuit duration is the latest end of any instruction. */
  lemma AlapTotal(c: Circuit, durs: seq<nat>, lat: IOLatency)
    requires WellFormed(c) && |durs| == |c.ops|
    ensures Schedule(c, durs, lat).total == LatestEnd(Schedule(c, durs, lat).starts, durs)
  {
    WellFormedSchedulable(c);
    var st := Run(c.ops, durs, lat);
    var s := Schedule(c, durs, lat);
    var r := LatestEnd(s.starts, durs);
    if c.ops == [] {
      assert st.avail == map[] && s.starts == [];
      SpanFacts(st.avail, c.numQubits, c.numClbits);
    } else {
      var n := |c.ops| - 1;
      RunLastAtEnd(c.ops, durs, lat);
      ScheduleWithinSpan(c, durs, lat);
      assert s.starts[n] + durs[n] == s.total;
      assert r <= s.total by {
        assert 0 <= s.starts[0] && End(s, 0) <= s.total;
        if r != 0 {
          var i :| 0 <= i < |s.starts| && s.starts[i] + durs[i] == r;
          assert End(s, i) <= s.total;
        }
      }
    }
  }

  /** The ALAP schedule respects every timing constraint. */
  lemma AlapRespects(c: Circuit, durs: seq<nat>, lat: IOLatency)
    requires WellFormed(c) && |durs| == |c.ops|
    ensures Respects(c.ops, Schedule(c, durs, lat), lat)
  {
    WellFormedSchedulable(c);
    var st := Run(c.ops, durs, lat);
    var s := Schedule(c, durs, lat);
    ScheduleWithinSpan(c, durs, lat);
    RunQubitsExclusive(c.ops, durs, lat);
    RunReadsAfterWrite(c.ops, durs, lat);
    RunWritesInOrder(c.ops, durs, lat);
    RunReadsInOrder(c.ops, durs, lat);
    RunReadsBeforeWrite(c.ops, durs, lat);
    assert forall i :: 0 <= i < |c.ops| ==> s.starts[i] == s.total - (st.starts[i] + durs[i]);
  }

  /** A qubit is needed at 0 or exactly when an instruction on it starts, in
      reversed time. */
  lemma {:induction false} RunQubitsTight(ops: seq<Op>, durs: seq<nat>, lat: IOLatency)
    requires |durs| == |ops| && AllSchedulable(ops)
    ensures forall q :: (Get(Run(ops, durs, lat).avail, Qubit(q)) == 0 ||
      exists i :: 0 <= i < |ops| && q in ops[i].qubits &&
        Run(ops, durs, lat).starts[i] + durs[i] == Get(Run(ops, durs, lat).avail, Qubit(q)))
  {
    if ops != [] {
      RunFirst(ops, durs, lat);
      var rest := Run(ops[1..], durs[1..], lat);
      RunQubitsTight(ops[1..], durs[1..], lat);
      var p := Step(rest.avail, ops[0], durs[0], lat);
      StepQubits(rest.avail, ops[0], durs[0], lat);
      var s := Run(ops, durs, lat);
      forall q | Get(s.avail, Qubit(q)) != 0
        ensures exists i :: 0 <= i < |ops| && q in ops[i].qubits && s.starts[i] + durs[i] == Get(s.avail, Qubit(q))
      {
        if q !in ops[0].qubits {
          var i :| 0 <= i < |ops| - 1 && q in ops[1..][i].qubits && rest.starts[i] + durs[1..][i] == Get(rest.avail, Qubit(q));
          assert ops[1..][i] == ops[i + 1] && durs[1..][i] == durs[i + 1] && s.starts[i + 1] == rest.starts[i];
        } else {
          assert s.starts[0] == p.start;
        }
      }
    }
  }

  /** An instruction placed on its qubits alone ends, in reversed time, at 0 or
      exactly when a later instruction on one of its qubits starts. */
  lemma {:induction false} RunLatest(ops: seq<Op>, durs: seq<nat>, lat: IOLatency, j: nat) returns (i: nat, q: nat)
    requires |durs| == |ops| && AllSchedulable(ops) && j < |ops| && QubitsOnly(ops[j])
    requires Run(ops, durs, lat).starts[j] != 0
    ensures j < i < |ops| && q in ops[i].qubits && q in ops[j].qubits
    ensures Run(ops, durs, lat).starts[i] + durs[i] == Run(ops, durs, lat).starts[j]
  {
    RunFirst(ops, durs, lat);
    var rest := Run(ops[1..], durs[1..], lat);
    var s := Run(ops, durs, lat);
    if j == 0 {
      var p := Step(rest.avail, ops[0], durs[0], lat);
      StepTight(rest.avail, ops[0], durs[0], lat);
      q :| q in ops[0].qubits && Get(rest.avail, Qubit(q)) == p.start;
      RunQubitsTight(ops[1..], durs[1..], lat);
      var k :| 0 <= k < |ops| - 1 && q in ops[1..][k].qubits && rest.starts[k] + durs[1..][k] == Get(rest.avail, Qubit(q));
      i := k + 1;
      assert ops[1..][k] == ops[i] && durs[1..][k] == durs[i] && s.starts[i] == rest.starts[k];
    } else {
      assert ops[1..][j - 1] == ops[j] && s.starts[j] == rest.starts[j - 1];
      var k;
      k, q := RunLatest(ops[1..], durs[1..], lat, j - 1);
      i := k + 1;
      assert ops[1..][k] == ops[i] && durs[1..][k] == durs[i] && s.starts[i] == rest.starts[k];
    }
  }

  /** An unconditional gate or delay, or a barrier on qubits only, is not moved
      earlier than it must be: it ends when the circuit ends, or exactly when a
      later instruction on one of its qubits starts. */
  lemma AlapLatest(c: Circuit, durs: seq<nat>, lat: IOLatency, s: Timing.Schedule, j: nat)
    requires WellFormed(c) && |durs| == |c.ops| && s == Schedule(c, durs, lat)
    requires j < |c.ops| && QubitsOnly(c.ops[j])
    ensures End(s, j) == s.total ||
      exists i, q :: j < i < |c.ops| && q in c.ops[i].qubits && q in c.ops[j].qubits && s.starts[i] == End(s, j)
  {
    WellFormedSchedulable(c);
    var st := Run(c.ops, durs, lat);
    assert s.durations == durs;
    assert forall k :: 0 <= k < |c.ops| ==> s.starts[k] == s.total - (st.starts[k] + durs[k]);
    if st.starts[j] != 0 {
      var i, q := RunLatest(c.ops, durs, lat, j);
      assert s.starts[i] == End(s, j);
    }
  }

  /** Placing the instruction before a suffix of the circuit. */
  lemma RunPrepend(ops: seq<Op>, durs: seq<nat>, lat: IOLatency, i: nat, a: Avail, ends: seq<int>)
    requires |durs| == |ops| && AllSchedulable(ops) && 0 < i <= |ops|
    requires AllSchedulable(ops[i..])
    requires State(a, ends) == Run(ops[i..], durs[i..], lat)
    ensures AllSchedulable(ops[i - 1..])
    ensures Run(ops[i - 1..], durs[i - 1..], lat) ==
      State(Step(a, ops[i - 1], durs[i - 1], lat).avail, [Step(a, ops[i - 1], durs[i - 1], lat).start] + ends)
  {
    assert ops[i - 1..][1..] == ops[i..] && durs[i - 1..][1..] == durs[i..];
    assert ops[i - 1..][0] == ops[i - 1] && durs[i - 1..][0] == durs[i - 1];
    var tail := ops[i - 1..];
    forall k | 0 <= k < |tail| ensures Schedulable(tail[k]) {
      assert tail[k] == ops[i - 1 + k];
    }
    RunFirst(ops[i - 1..], durs[i - 1..], lat);
  }

  /** The ALAP pass: resolve every duration (calibration first, then the table),
      then place the instructions from the last to the first. It fails at the
      first instruction whose duration is unknown and otherwise at the last
      conditional instruction that is neither a gate nor a delay. */
  method AlapScheduleAnalysis(c: Circuit, cal: Calibrations, table: DurationTable, lat: IOLatency)
    returns (r: Result<Timing.Schedule>)
    requires WellFormed(c)
    ensures r.Success? <==> AllResolved(cal, table, c.ops) && AllSupported(c.ops)
    ensures r.Success? ==> r.value == Schedule(c, DurationsOf(cal, table, c.ops), lat)
    ensures r.Failure? && !AllResolved(cal, table, c.ops) ==>
      && r.error.UnresolvedDuration? && r.error.index < |c.ops|
      && NodeDuration(cal, table, c.ops[r.error.index]).None?
      && AllResolved(cal, table, c.ops[..r.error.index])
    ensures r.Failure? && AllResolved(cal, table, c.ops) ==>
      && r.error.UnsupportedCondition? && r.error.index < |c.ops|
      && !ConditionSupported(c.ops[r.error.index])
      && AllSupported(c.ops[r.error.index + 1..])
  {
    var resolved := ResolveDurations(cal, table, c.ops);
    if resolved.Failure? {
      return Failure(resolved.error);
    }
    r := PlaceAll(c, resolved.value, lat);
  }

  /** Visit the instructions from the last to the first, placing each by the
      ALAP rule, then turn every start around against the circuit's duration. */
  method PlaceAll(c: Circuit, durs: seq<nat>, lat: IOLatency) returns (r: Result<Timing.Schedule>)
    requires WellFormed(c) && |durs| == |c.ops|
    ensures r.Success? <==> AllSupported(c.ops)
    ensures r.Success? ==> r.value == Schedule(c, durs, lat)
    ensures r.Failure? ==>
      && r.error.UnsupportedCondition? && r.error.index < |c.ops|
      && !ConditionSupported(c.ops[r.error.index])
      && AllSupported(c.ops[r.error.index + 1..])
  {
    WellFormedSchedulable(c);
    var avail: Avail := map[];
    var ends: seq<int> := [];
    var i := |c.ops|;
    assert c.ops[i..] == [] && durs[i..] == [];
    while i > 0
      invariant 0 <= i <= |c.ops|
      invariant AllSchedulable(c.ops[i..]) && AllSupported(c.ops[i..])
      invariant State(avail, ends) == Run(c.ops[i..], durs[i..], lat)
    {
      if !ConditionSupported(c.ops[i - 1]) {
        return Failure(UnsupportedCondition(i - 1));
      }
      var p := Step(avail, c.ops[i - 1], durs[i - 1], lat);
      RunPrepend(c.ops, durs, lat, i, avail, ends);
      AllSupportedPrepend(c.ops, i);
      avail := p.avail;
      ends := [p.start] + ends;
      i := i - 1;
    }
    assert c.ops[i..] == c.ops && durs[i..] == durs;
    var total := Span(avail, c.numQubits, c.numClbits);
    var starts := Turn(ends, durs, total);
    r := Success(Timing.Schedule(starts, durs, total));
  }

  /** Turn every instruction's distance from the end into its start time. */
  method Turn(ends: seq<int>, durs: seq<nat>, total: int) returns (starts: seq<int>)
    requires |ends| == |durs|
    ensures starts == Flip(ends, durs, total)
  {
    starts := [];
    var k := 0;
    while k < |ends|
      invariant 0 <= k <= |ends|
      invariant |starts| == k
      invariant forall m :: 0 <= m < k ==> starts[m] == total - (ends[m] + durs[m])
    {
      starts := starts + [total - (ends[k] + durs[k])];
      k := k + 1;
    }
  }
}
