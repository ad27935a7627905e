/** As-soon-as-possible scheduling: instructions are visited in program order and
    each starts as soon as its qubits, and the clbits it reads or writes, allow. */
module Asap {
  import opened Circuits
  import opened Timing
  import opened Durations
  import opened Constraints

  /** The ASAP rule for one instruction of duration `dur`, given the time each
      wire is available; what it guarantees is stated by the `Step...` lemmas. */
  function Step(a: Avail, op: Op, dur: nat, lat: IOLatency): (p: Placed)
    requires Schedulable(op)
  {
    match op.kind
    case Measure => MeasureStep(a, op, dur, lat)
    case Barrier => BarrierStep(a, op, dur)
    case _ =>
      if |op.condition| > 0 then ConditionalStep(a, op, dur, lat) else GateStep(a, op, dur)
  }

  /** What the rule of the instruction's kind guarantees. */
  lemma StepFacts(a: Avail, op: Op, dur: nat, lat: IOLatency)
    requires Schedulable(op)
    ensures var p := Step(a, op, dur, lat);
      && (forall q :: q in op.qubits ==> Get(a, Qubit(q)) <= p.start)
      && (forall q :: Get(p.avail, Qubit(q)) == if q in op.qubits then p.start + dur else Get(a, Qubit(q)))
      && (op.kind.Measure? ==> forall b :: b in op.clbits ==> Get(a, Clbit(b)) <= p.start + lat.clbitWrite)
      && (op.kind.Measure? ==>
           forall b :: Get(p.avail, Clbit(b)) == if b in op.clbits then p.start + dur else Get(a, Clbit(b)))
      && (Conditional(op) ==> forall b :: b in op.condition ==>
           Get(a, Clbit(b)) + lat.conditional <= Get(p.avail, Clbit(b)) == p.start)
      && (Conditional(op) ==> forall b :: b !in op.condition ==> Get(p.avail, Clbit(b)) == Get(a, Clbit(b)))
      && (!op.kind.Measure? && !Conditional(op) ==> forall b :: Get(p.avail, Clbit(b)) == Get(a, Clbit(b)))
      && (QubitsOnly(op) ==> exists q :: q in op.qubits && Get(a, Qubit(q)) == p.start)
  {
    var p := Step(a, op, dur, lat);
    match op.kind
    case Measure => MeasureStepFacts(a, op, dur, lat, p);
    case Barrier => BarrierStepFacts(a, op, dur, p);
    case _ =>
      if |op.condition| > 0 {
        ConditionalStepFacts(a, op, dur, lat, p);
      } else {
        GateStepFacts(a, op, dur, p);
      }
  }

  /** An instruction waits for every one of its qubits and holds them until it ends;
      the other qubits keep their time. */
  lemma StepQubits(a: Avail, op: Op, dur: nat, lat: IOLatency)
    requires Schedulable(op)
    ensures forall q :: q in op.qubits ==> Get(a, Qubit(q)) <= Step(a, op, dur, lat).start
    ensures forall q :: (Get(Step(a, op, dur, lat).avail, Qubit(q)) ==
      if q in op.qubits then Step(a, op, dur, lat).start + dur else Get(a, Qubit(q)))
  {
    StepFacts(a, op, dur, lat);
  }

  /** A measure may start up to `clbitWrite` before its clbits are free, and holds
      them until it ends. */
  lemma StepMeasure(a: Avail, op: Op, dur: nat, lat: IOLatency)
    requires Schedulable(op) && op.kind.Measure?
    ensures forall b :: b in op.clbits ==> Get(a, Clbit(b)) <= Step(a, op, dur, lat).start + lat.clbitWrite
    ensures forall b :: (Get(Step(a, op, dur, lat).avail, Clbit(b)) ==
      if b in op.clbits then Step(a, op, dur, lat).start + dur else Get(a, Clbit(b)))
  {
    StepFacts(a, op, dur, lat);
  }

  /** A conditional instruction reads each condition clbit `conditional` after it
      is free, and starts when the read completes, holding the clbit until then;
      it touches no other clbit. */
  lemma StepConditional(a: Avail, op: Op, dur: nat, lat: IOLatency)
    requires Schedulable(op) && Conditional(op)
    ensures forall b :: b in op.condition ==>
      Get(a, Clbit(b)) + lat.conditional <= Get(Step(a, op, dur, lat).avail, Clbit(b)) == Step(a, op, dur, lat).start
    ensures forall b :: b !in op.condition ==> Get(Step(a, op, dur, lat).avail, Clbit(b)) == Get(a, Clbit(b))
  {
    StepFacts(a, op, dur, lat);
  }

  /** Neither an unconditional gate or delay nor a barrier touches a clbit. */
  lemma StepKeepsClbits(a: Avail, op: Op, dur: nat, lat: IOLatency)
    requires Schedulable(op) && !op.kind.Measure? && !Conditional(op)
    ensures forall b :: Get(Step(a, op, dur, lat).avail, Clbit(b)) == Get(a, Clbit(b))
  {
    StepFacts(a, op, dur, lat);
  }

  /** A clbit that the instruction does not write becomes free no earlier than before. */
  lemma StepClbitsMonotone(a: Avail, op: Op, dur: nat, lat: IOLatency)
    requires Schedulable(op)
    ensures forall b :: !Writes(op, b) ==> Get(a, Clbit(b)) <= Get(Step(a, op, dur, lat).avail, Clbit(b))
  {
    if op.kind.Measure? {
      StepMeasure(a, op, dur, lat);
    } else if Conditional(op) {
      StepConditional(a, op, dur, lat);
    } else {
      StepKeepsClbits(a, op, dur, lat);
    }
  }

  /** An instruction placed on its qubits alone starts exactly when its last
      qubit is free. */
  lemma StepTight(a: Avail, op: Op, dur: nat, lat: IOLatency)
    requires Schedulable(op) && QubitsOnly(op)
    ensures exists q :: q in op.qubits && Get(a, Qubit(q)) == Step(a, op, dur, lat).start
  {
    StepFacts(a, op, dur, lat);
  }

  /** No wire is held beyond the end of the instruction. */
  lemma StepChanged(a: Avail, op: Op, dur: nat, lat: IOLatency)
    requires Schedulable(op)
    ensures forall w :: Get(Step(a, op, dur, lat).avail, w) != Get(a, w) ==>
      Get(Step(a, op, dur, lat).avail, w) <= Step(a, op, dur, lat).start + dur
  {
    var p := Step(a, op, dur, lat);
    StepQubits(a, op, dur, lat);
    if op.kind.Measure? {
      StepMeasure(a, op, dur, lat);
    } else if Conditional(op) {
      StepConditional(a, op, dur, lat);
    } else {
      StepKeepsClbits(a, op, dur, lat);
    }
    forall w | Get(p.avail, w) != Get(a, w) ensures Get(p.avail, w) <= p.start + dur {
      match w
      case Qubit(q) =>
      case Clbit(b) =>
    }
  }

  /** A measure waits for its qubits, and for its clbits less `clbitWrite`. */
  function MeasureStep(a: Avail, op: Op, dur: nat, lat: IOLatency): (p: Placed)
    requires op.kind.Measure? && Schedulable(op)
  {
    var qs := QubitWires(op.qubits);
    var cs := ClbitWires(op.clbits);
    var t0 := Max(MaxOver(a, qs), MaxOver(a, cs) - lat.clbitWrite);
    Placed(t0, SetAll(SetAll(a, cs, t0 + dur), qs, t0 + dur))
  }

  lemma MeasureStepFacts(a: Avail, op: Op, dur: nat, lat: IOLatency, p: Placed)
    requires op.kind.Measure? && Schedulable(op)
    requires p == MeasureStep(a, op, dur, lat)
    ensures forall q :: q in op.qubits ==> Get(a, Qubit(q)) <= p.start
    ensures forall q :: Get(p.avail, Qubit(q)) == if q in op.qubits then p.start + dur else Get(a, Qubit(q))
    ensures forall b :: b in op.clbits ==> Get(a, Clbit(b)) <= p.start + lat.clbitWrite
    ensures forall b :: Get(p.avail, Clbit(b)) == if b in op.clbits then p.start + dur else Get(a, Clbit(b))
  {
    var a1 := SetAll(a, ClbitWires(op.clbits), p.start + dur);
    assert p.avail == SetAll(a1, QubitWires(op.qubits), p.start + dur);
    MaxOverQubits(a, op.qubits);
    MaxOverClbits(a, op.clbits);
    SetClbits(a, op.clbits, p.start + dur);
    SetQubits(a1, op.qubits, p.start + dur);
  }

  /** A barrier starts when the last of its wires is free and holds its qubits. */
  function BarrierStep(a: Avail, op: Op, dur: nat): (p: Placed)
    requires op.kind.Barrier? && Schedulable(op)
  {
    var qs := QubitWires(op.qubits);
    var t0 := if op.clbits == [] then MaxOver(a, qs) else Max(MaxOver(a, qs), MaxOver(a, ClbitWires(op.clbits)));
    Placed(t0, SetAll(a, qs, t0 + dur))
  }

  lemma BarrierStepFacts(a: Avail, op: Op, dur: nat, p: Placed)
    requires op.kind.Barrier? && Schedulable(op)
    requires p == BarrierStep(a, op, dur)
    ensures forall q :: q in op.qubits ==> Get(a, Qubit(q)) <= p.start
    ensures forall q :: Get(p.avail, Qubit(q)) == if q in op.qubits then p.start + dur else Get(a, Qubit(q))
    ensures forall b :: Get(p.avail, Clbit(b)) == Get(a, Clbit(b))
    ensures op.clbits == [] ==> exists q :: q in op.qubits && Get(a, Qubit(q)) == p.start
  {
    var qs := QubitWires(op.qubits);
    assert p.start >= MaxOver(a, qs);
    assert op.clbits == [] ==> p.start == MaxOver(a, qs);
    MaxOverQubits(a, op.qubits);
    SetQubits(a, op.qubits, p.start + dur);
  }

  /** An unconditional gate or delay starts when the last of its qubits is free. */
  function GateStep(a: Avail, op: Op, dur: nat): (p: Placed)
    requires Schedulable(op)
  {
    var qs := QubitWires(op.qubits);
    var t0 := MaxOver(a, qs);
    Placed(t0, SetAll(a, qs, t0 + dur))
  }

  lemma GateStepFacts(a: Avail, op: Op, dur: nat, p: Placed)
    requires Schedulable(op)
    requires p == GateStep(a, op, dur)
    ensures forall q :: q in op.qubits ==> Get(a, Qubit(q)) <= p.start
    ensures forall q :: Get(p.avail, Qubit(q)) == if q in op.qubits then p.start + dur else Get(a, Qubit(q))
    ensures forall b :: Get(p.avail, Clbit(b)) == Get(a, Clbit(b))
    ensures exists q :: q in op.qubits && Get(a, Qubit(q)) == p.start
  {
    MaxOverQubits(a, op.qubits);
    SetQubits(a, op.qubits, p.start + dur);
  }

  /** A conditional gate reads its condition clbits once they are free, and no
      earlier than `conditional` before its qubits are free; it starts
      `conditional` after the read. */
  function ConditionalStep(a: Avail, op: Op, dur: nat, lat: IOLatency): (p: Placed)
    requires Schedulable(op) && |op.condition| > 0
  {
    var qs := QubitWires(op.qubits);
    var cs := ClbitWires(op.condition);
    var t0q := MaxOver(a, qs);
    var c0 := MaxOver(a, cs);
    var t0c := if t0q > c0 then Max(t0q - lat.conditional, c0) else c0;
    var t1c := t0c + lat.conditional;
    var t0 := Max(t0q, t1c);
    var a1 := SetAll(a, cs, t1c);
    var a2 := SetAll(a1, qs, t0 + dur);
    Placed(t0, a2)
  }

  lemma ConditionalStepFacts(a: Avail, op: Op, dur: nat, lat: IOLatency, p: Placed)
    requires Schedulable(op) && |op.condition| > 0
    requires p == ConditionalStep(a, op, dur, lat)
    ensures forall q :: q in op.qubits ==> Get(a, Qubit(q)) <= p.start
    ensures forall q :: Get(p.avail, Qubit(q)) == if q in op.qubits then p.start + dur else Get(a, Qubit(q))
    ensures forall b :: b in op.condition ==>
      Get(a, Clbit(b)) + lat.conditional <= Get(p.avail, Clbit(b)) == p.start
    ensures forall b :: b !in op.condition ==> Get(p.avail, Clbit(b)) == Get(a, Clbit(b))
  {
    var qs := QubitWires(op.qubits);
    var cs := ClbitWires(op.condition);
    var t0q := MaxOver(a, qs);
    var c0 := MaxOver(a, cs);
    var t0c := if t0q > c0 then Max(t0q - lat.conditional, c0) else c0;
    var t1c := t0c + lat.conditional;
    var a1 := SetAll(a, cs, t1c);
    assert p.start == t1c && p.avail == SetAll(a1, qs, p.start + dur);
    MaxOverQubits(a, op.qubits);
    MaxOverClbits(a, op.condition);
    SetClbits(a, op.condition, t1c);
    SetQubits(a1, op.qubits, p.start + dur);
    assert forall b :: b in op.condition ==> Get(a, Clbit(b)) <= c0 && Get(p.avail, Clbit(b)) == t1c;
  }

  /** The availability table and the start times after visiting `ops` in order. */
  function Run(ops: seq<Op>, durs: seq<nat>, lat: IOLatency): (s: State)
    requires |durs| == |ops| && AllSchedulable(ops)
    ensures |s.starts| == |ops|
  {
    if ops == [] then State(map[], [])
    else
      var n := |ops| - 1;
      var s := Run(ops[..n], durs[..n], lat);
      var p := Step(s.avail, ops[n], durs[n], lat);
      State(p.avail, s.starts + [p.start])
  }

  /** The ASAP rule applied from the availability table `a`, the first
      instruction first: `Run` read as a left-to-right replay. An instruction
      the rule cannot place (which a well-formed circuit does not have) is
      skipped at time 0. */
  function RunFrom(a: Avail, ops: seq<Op>, durs: seq<nat>, lat: IOLatency): (s: State)
    requires |durs| == |ops|
    ensures |s.starts| == |ops|
    decreases |ops|
  {
    if ops == [] then State(a, [])
    else
      var p := if Schedulable(ops[0]) then Step(a, ops[0], durs[0], lat) else Placed(0, a);
      var rest := RunFrom(p.avail, ops[1..], durs[1..], lat);
      State(rest.avail, [p.start] + rest.starts)
  }

  /** Replaying the instructions is replaying all but the last, then placing the last. */
  lemma RunFromLast(a: Avail, ops: seq<Op>, durs: seq<nat>, lat: IOLatency)
    requires |durs| == |ops| && ops != [] && Schedulable(ops[|ops| - 1])
    ensures var n := |ops| - 1;
      var prev := RunFrom(a, ops[..n], durs[..n], lat);
      var p := Step(prev.avail, ops[n], durs[n], lat);
      RunFrom(a, ops, durs, lat) == State(p.avail, prev.starts + [p.start])
  {
    var n := |ops| - 1;
    assert ops[..n] + [ops[n]] == ops && durs[..n] + [durs[n]] == durs;
    RunFromAppend(a, ops[..n], durs[..n], [ops[n]], [durs[n]], lat);
  }

  /** Replaying `xs + ys` is replaying `xs`, then `ys` from where `xs` left the table. */
  lemma {:induction false} RunFromAppend(a: Avail, xs: seq<Op>, dx: seq<nat>, ys: seq<Op>, dy: seq<nat>, lat: IOLatency)
    requires |dx| == |xs| && |dy| == |ys|
    ensures var r1 := RunFrom(a, xs, dx, lat);
      var r2 := RunFrom(r1.avail, ys, dy, lat);
      RunFrom(a, xs + ys, dx + dy, lat) == State(r2.avail, r1.starts + r2.starts)
    decreases |xs|
  {
    if xs == [] {
      assert xs + ys == ys && dx + dy == dy;
    } else {
      var p := if Schedulable(xs[0]) then Step(a, xs[0], dx[0], lat) else Placed(0, a);
      RunFromAppend(p.avail, xs[1..], dx[1..], ys, dy, lat);
      assert (xs + ys)[1..] == xs[1..] + ys && (dx + dy)[1..] == dx[1..] + dy;
      assert (xs + ys)[0] == xs[0] && (dx + dy)[0] == dx[0];
      var t1 := RunFrom(p.avail, xs[1..], dx[1..], lat);
      var r2 := RunFrom(t1.avail, ys, dy, lat);
      assert [p.start] + (t1.starts + r2.starts) == ([p.start] + t1.starts) + r2.starts;
    }
  }

  /** Replaying the instructions from `i` on is replaying those before `j`, then
      the rest from where they left the table. */
  lemma RunFromSplit(a: Avail, ops: seq<Op>, durs: seq<nat>, lat: IOLatency, i: nat, j: nat)
    requires |durs| == |ops| && i <= j <= |ops|
    ensures var r1 := RunFrom(a, ops[i..j], durs[i..j], lat);
      var r2 := RunFrom(r1.avail, ops[j..], durs[j..], lat);
      RunFrom(a, ops[i..], durs[i..], lat) == State(r2.avail, r1.starts + r2.starts)
  {
    assert ops[i..] == ops[i..j] + ops[j..] && durs[i..] == durs[i..j] + durs[j..];
    RunFromAppend(a, ops[i..j], durs[i..j], ops[j..], durs[j..], lat);
  }

  /** A replay is fixed by its steps: if each instruction, placed on the table
      the one before it left, starts at `ts[k]` and leaves `avs[k + 1]`, the
      replay from `avs[0]` starts the instructions at `ts` and ends with the last table. */
  lemma {:induction false} RunFromSteps(avs: seq<Avail>, ops: seq<Op>, durs: seq<nat>, ts: seq<int>, lat: IOLatency)
    requires |durs| == |ops| && |ts| == |ops| && |avs| == |ops| + 1
    requires forall k :: 0 <= k < |ops| ==>
      Schedulable(ops[k]) && Step(avs[k], ops[k], durs[k], lat) == Placed(ts[k], avs[k + 1])
    ensures RunFrom(avs[0], ops, durs, lat) == State(avs[|ops|], ts)
    decreases |ops|
  {
    if ops != [] {
      assert forall k :: 1 <= k < |ops| ==>
        (ops[1..][k - 1] == ops[k] && durs[1..][k - 1] == durs[k] && ts[1..][k - 1] == ts[k] &&
         avs[1..][k - 1] == avs[k] && avs[1..][k] == avs[k + 1]);
      RunFromSteps(avs[1..], ops[1..], durs[1..], ts[1..], lat);
      assert ts == [ts[0]] + ts[1..];
    }
  }

  /** `Run` and the replay from an empty table agree. */
  lemma {:induction false} RunIsRunFrom(ops: seq<Op>, durs: seq<nat>, lat: IOLatency)
    requires |durs| == |ops| && AllSchedulable(ops)
    ensures Run(ops, durs, lat) == RunFrom(map[], ops, durs, lat)
  {
    if ops != [] {
      var n := |ops| - 1;
      assert AllSchedulable(ops[..n]) by {
        assert forall i :: 0 <= i < n ==> ops[..n][i] == ops[i];
      }
      RunIsRunFrom(ops[..n], durs[..n], lat);
      RunFromLast(map[], ops, durs, lat);
    }
  }

  /** The ASAP schedule of a circuit whose durations are known. */
  function Schedule(c: Circuit, durs: seq<nat>, lat: IOLatency): (s: Timing.Schedule)
    requires WellFormed(c) && |durs| == |c.ops|
    ensures Shaped(c.ops, s) && s.durations == durs
  {
    WellFormedSchedulable(c);
    var st := Run(c.ops, durs, lat);
    Timing.Schedule(st.starts, durs, Span(st.avail, c.numQubits, c.numClbits))
  }

  /** Run over a prefix of the instructions is the prefix of the run. */
  lemma {:induction false} RunPrefix(ops: seq<Op>, durs: seq<nat>, lat: IOLatency, m: nat)
    requires |durs| == |ops| && AllSchedulable(ops) && m <= |ops|
    ensures AllSchedulable(ops[..m])
    ensures Run(ops[..m], durs[..m], lat).starts == Run(ops, durs, lat).starts[..m]
    decreases |ops| - m
  {
    if m < |ops| {
      var n := |ops| - 1;
      RunPrefix(ops[..n], durs[..n], lat, m);
      assert ops[..n][..m] == ops[..m] && durs[..n][..m] == durs[..m];
    } else {
      assert ops[..m] == ops && durs[..m] == durs;
    }
  }

  /** Every wire is available from a non-negative time, and every instruction
      starts at a non-negative time. */
  lemma {:induction false} RunNonNegative(ops: seq<Op>, durs: seq<nat>, lat: IOLatency)
    requires |durs| == |ops| && AllSchedulable(ops)
    ensures forall w :: Get(Run(ops, durs, lat).avail, w) >= 0
    ensures forall i :: 0 <= i < |ops| ==> Run(ops, durs, lat).starts[i] >= 0
  {
    if ops != [] {
      var n := |ops| - 1;
      var prev := Run(ops[..n], durs[..n], lat);
      RunNonNegative(ops[..n], durs[..n], lat);
      var p := Step(prev.avail, ops[n], durs[n], lat);
      StepQubits(prev.avail, ops[n], durs[n], lat);
      StepClbitsMonotone(prev.avail, ops[n], durs[n], lat);
      if ops[n].kind.Measure? {
        StepMeasure(prev.avail, ops[n], durs[n], lat);
      }
      assert Run(ops, durs, lat) == State(p.avail, prev.starts + [p.start]);
      assert p.start >= 0 by {
        assert Get(prev.avail, Qubit(ops[n].qubits[0])) <= p.start;
      }
      forall w ensures Get(p.avail, w) >= 0 {
        match w
        case Qubit(q) =>
          assert Get(prev.avail, Qubit(q)) >= 0;
        case Clbit(b) =>
          if Writes(ops[n], b) {
            assert Get(p.avail, Clbit(b)) == p.start + durs[n];
          } else {
            assert Get(prev.avail, Clbit(b)) <= Get(p.avail, Clbit(b));
          }
      }
      assert forall i :: 0 <= i < n ==> prev.starts[i] >= 0;
    }
  }

  /** The last instruction of a run is placed by the ASAP rule after the others. */
  lemma RunLast(ops: seq<Op>, durs: seq<nat>, lat: IOLatency)
    requires |durs| == |ops| && AllSchedulable(ops) && ops != []
    ensures var n := |ops| - 1;
      var prev := Run(ops[..n], durs[..n], lat);
      var p := Step(prev.avail, ops[n], durs[n], lat);
      && Run(ops, durs, lat).avail == p.avail
      && Run(ops, durs, lat).starts == prev.starts + [p.start]
  {
  }

  /** Every instruction on a qubit ends by the time the qubit is available. */
  lemma {:induction false} RunQubitsHeld(ops: seq<Op>, durs: seq<nat>, lat: IOLatency)
    requires |durs| == |ops| && AllSchedulable(ops)
    ensures forall i, q :: 0 <= i < |ops| && q in ops[i].qubits ==>
      Run(ops, durs, lat).starts[i] + durs[i] <= Get(Run(ops, durs, lat).avail, Qubit(q))
  {
    if ops != [] {
      var n := |ops| - 1;
      var prev := Run(ops[..n], durs[..n], lat);
      RunQubitsHeld(ops[..n], durs[..n], lat);
      var p := Step(prev.avail, ops[n], durs[n], lat);
      StepQubits(prev.avail, ops[n], durs[n], lat);
      var s := Run(ops, durs, lat);
      assert s == State(p.avail, prev.starts + [p.start]);
      forall i, q | 0 <= i < |ops| && q in ops[i].qubits
        ensures s.starts[i] + durs[i] <= Get(s.avail, Qubit(q))
      {
        if i < n {
          assert ops[..n][i] == ops[i] && durs[..n][i] == durs[i] && s.starts[i] == prev.starts[i];
          assert prev.starts[i] + durs[i] <= Get(prev.avail, Qubit(q));
          assert Get(prev.avail, Qubit(q)) <= Get(p.avail, Qubit(q));
        } else {
          assert s.starts[n] == p.start;
        }
      }
    }
  }

  /** Instructions sharing a qubit run in program order without overlapping. */
  lemma {:induction false} RunQubitsExclusive(ops: seq<Op>, durs: seq<nat>, lat: IOLatency)
    requires |durs| == |ops| && AllSchedulable(ops)
    ensures forall i, j, q :: 0 <= i < j < |ops| && q in ops[i].qubits && q in ops[j].qubits ==>
      Run(ops, durs, lat).starts[i] + durs[i] <= Run(ops, durs, lat).starts[j]
  {
    if ops != [] {
      var n := |ops| - 1;
      var prev := Run(ops[..n], durs[..n], lat);
      RunQubitsExclusive(ops[..n], durs[..n], lat);
      RunQubitsHeld(ops[..n], durs[..n], lat);
      var p := Step(prev.avail, ops[n], durs[n], lat);
      StepQubits(prev.avail, ops[n], durs[n], lat);
      RunLast(ops, durs, lat);
      var s := Run(ops, durs, lat);
      forall i, j, q | 0 <= i < j < |ops| && q in ops[i].qubits && q in ops[j].qubits
        ensures s.starts[i] + durs[i] <= s.starts[j]
      {
        assert ops[..n][i] == ops[i] && durs[..n][i] == durs[i];
        assert s.starts[i] == prev.starts[i];
        if j == n {
          assert prev.starts[i] + durs[i] <= Get(prev.avail, Qubit(q));
          assert s.starts[j] == p.start;
        } else {
          assert ops[..n][j] == ops[j] && s.starts[j] == prev.starts[j];
          assert prev.starts[i] + durs[..n][i] <= prev.starts[j];
        }
      }
    }
  }

  /** A qubit's availability is 0 or the end of an instruction on it. */
  lemma {:induction false} RunQubitsTight(ops: seq<Op>, durs: seq<nat>, lat: IOLatency)
    requires |durs| == |ops| && AllSchedulable(ops)
    ensures forall q :: (Get(Run(ops, durs, lat).avail, Qubit(q)) == 0 ||
      exists i :: 0 <= i < |ops| && q in ops[i].qubits &&
        Run(ops, durs, lat).starts[i] + durs[i] == Get(Run(ops, durs, lat).avail, Qubit(q)))
  {
    if ops != [] {
      var n := |ops| - 1;
      var prev := Run(ops[..n], durs[..n], lat);
      RunQubitsTight(ops[..n], durs[..n], lat);
      var p := Step(prev.avail, ops[n], durs[n], lat);
      StepQubits(prev.avail, ops[n], durs[n], lat);
      var s := Run(ops, durs, lat);
      assert s == State(p.avail, prev.starts + [p.start]);
      forall q | Get(s.avail, Qubit(q)) != 0
        ensures exists i :: 0 <= i < |ops| && q in ops[i].qubits && s.starts[i] + durs[i] == Get(s.avail, Qubit(q))
      {
        if q !in ops[n].qubits {
          var i :| 0 <= i < n && q in ops[..n][i].qubits && prev.starts[i] + durs[..n][i] == Get(prev.avail, Qubit(q));
          assert ops[..n][i] == ops[i] && durs[..n][i] == durs[i] && s.starts[i] == prev.starts[i];
        } else {
          assert s.starts[n] == p.start;
        }
      }
    }
  }

  /** A clbit is available no earlier than the end of the last measure that wrote it. */
  lemma {:induction false} RunClbits(ops: seq<Op>, durs: seq<nat>, lat: IOLatency)
    requires |durs| == |ops| && AllSchedulable(ops)
    ensures forall i: nat, b: nat :: LastWriterBefore(ops, i, |ops|, b) ==> Run(ops, durs, lat).starts[i] + durs[i] <= Get(Run(ops, durs, lat).avail, Clbit(b))
  {
    if ops != [] {
      var n := |ops| - 1;
      var prev := Run(ops[..n], durs[..n], lat);
      RunClbits(ops[..n], durs[..n], lat);
      var p := Step(prev.avail, ops[n], durs[n], lat);
      StepClbitsMonotone(prev.avail, ops[n], durs[n], lat);
      var s := Run(ops, durs, lat);
      assert s == State(p.avail, prev.starts + [p.start]);
      forall i: nat, b: nat | LastWriterBefore(ops, i, |ops|, b)
        ensures s.starts[i] + durs[i] <= Get(s.avail, Clbit(b))
      {
        if i < n {
          assert !Writes(ops[n], b);
          assert ops[..n][i] == ops[i] && durs[..n][i] == durs[i] && s.starts[i] == prev.starts[i];
          assert LastWriterBefore(ops[..n], i, |ops[..n]|, b) by {
            forall k | i < k < n ensures !Writes(ops[..n][k], b) {
              assert ops[..n][k] == ops[k];
            }
          }
          assert prev.starts[i] + durs[..n][i] <= Get(prev.avail, Clbit(b));
          assert Get(prev.avail, Clbit(b)) <= Get(p.avail, Clbit(b));
        } else {
          StepMeasure(prev.avail, ops[n], durs[n], lat);
          assert i == n && s.starts[n] == p.start;
          assert Get(p.avail, Clbit(b)) == p.start + durs[n];
        }
      }
    }
  }

  /** In the run, a conditional instruction starts `conditional` after the end of
      the measure it reads from. */
  lemma {:induction false} RunReadsAfterWrite(ops: seq<Op>, durs: seq<nat>, lat: IOLatency)
    requires |durs| == |ops| && AllSchedulable(ops)
    ensures forall i: nat, j: nat, b: nat :: LastWriterBefore(ops, i, j, b) && j < |ops| && Reads(ops[j], b) ==>
        Run(ops, durs, lat).starts[i] + durs[i] + lat.conditional <= Run(ops, durs, lat).starts[j]
  {
    if ops != [] {
      var n := |ops| - 1;
      var prev := Run(ops[..n], durs[..n], lat);
      RunReadsAfterWrite(ops[..n], durs[..n], lat);
      RunClbits(ops[..n], durs[..n], lat);
      var p := Step(prev.avail, ops[n], durs[n], lat);
      var s := Run(ops, durs, lat);
      assert s == State(p.avail, prev.starts + [p.start]);
      forall i: nat, j: nat, b: nat | LastWriterBefore(ops, i, j, b) && j < |ops| && Reads(ops[j], b)
        ensures s.starts[i] + durs[i] + lat.conditional <= s.starts[j]
      {
        LastWriterInPrefix(ops, i, j, b, n);
        assert ops[..n][i] == ops[i] && durs[..n][i] == durs[i] && s.starts[i] == prev.starts[i];
        if j < n {
          assert ops[..n][j] == ops[j] && s.starts[j] == prev.starts[j];
        } else {
          assert prev.starts[i] + durs[i] <= Get(prev.avail, Clbit(b));
          StepConditional(prev.avail, ops[n], durs[n], lat);
          assert Get(prev.avail, Clbit(b)) + lat.conditional <= Get(p.avail, Clbit(b)) <= p.start;
        }
      }
    }
  }

  lemma LastWriterInPrefix(ops: seq<Op>, i: nat, j: nat, b: nat, n: nat)
    requires LastWriterBefore(ops, i, j, b) && j <= n <= |ops|
    ensures LastWriterBefore(ops[..n], i, j, b)
  {
    forall k | i < k < j ensures !Writes(ops[..n][k], b) {
      assert ops[..n][k] == ops[k];
    }
  }

  /** In the run, a measure starts no earlier than `clbitWrite` before the end of
      the previous measure of the same clbit. */
  lemma {:induction false} RunWritesInOrder(ops: seq<Op>, durs: seq<nat>, lat: IOLatency)
    requires |durs| == |ops| && AllSchedulable(ops)
    ensures forall i: nat, k: nat, b: nat :: LastWriterBefore(ops, i, k, b) && k < |ops| && Writes(ops[k], b) ==>
        Run(ops, durs, lat).starts[i] + durs[i] <= Run(ops, durs, lat).starts[k] + lat.clbitWrite
  {
    if ops != [] {
      var n := |ops| - 1;
      var prev := Run(ops[..n], durs[..n], lat);
      RunWritesInOrder(ops[..n], durs[..n], lat);
      RunClbits(ops[..n], durs[..n], lat);
      var p := Step(prev.avail, ops[n], durs[n], lat);
      var s := Run(ops, durs, lat);
      assert s == State(p.avail, prev.starts + [p.start]);
      forall i: nat, k: nat, b: nat | LastWriterBefore(ops, i, k, b) && k < |ops| && Writes(ops[k], b)
        ensures s.starts[i] + durs[i] <= s.starts[k] + lat.clbitWrite
      {
        LastWriterInPrefix(ops, i, k, b, n);
        assert ops[..n][i] == ops[i] && durs[..n][i] == durs[i] && s.starts[i] == prev.starts[i];
        if k < n {
          assert ops[..n][k] == ops[k] && s.starts[k] == prev.starts[k];
        } else {
          assert prev.starts[i] + durs[i] <= Get(prev.avail, Clbit(b));
          StepMeasure(prev.avail, ops[n], durs[n], lat);
          assert Get(prev.avail, Clbit(b)) <= p.start + lat.clbitWrite;
        }
      }
    }
  }

  /** A clbit read by a conditional instruction, and not written after it, is
      free no earlier than that instruction starts. */
  lemma {:induction false} RunReadHeld(ops: seq<Op>, durs: seq<nat>, lat: IOLatency)
    requires |durs| == |ops| && AllSchedulable(ops)
    ensures forall i: nat, b: nat :: UnwrittenBetween(ops, i, |ops|, b) && Reads(ops[i], b) ==>
        Run(ops, durs, lat).starts[i] <= Get(Run(ops, durs, lat).avail, Clbit(b))
  {
    if ops != [] {
      var n := |ops| - 1;
      var prev := Run(ops[..n], durs[..n], lat);
      RunReadHeld(ops[..n], durs[..n], lat);
      var p := Step(prev.avail, ops[n], durs[n], lat);
      StepClbitsMonotone(prev.avail, ops[n], durs[n], lat);
      var s := Run(ops, durs, lat);
      assert s == State(p.avail, prev.starts + [p.start]);
      forall i: nat, b: nat | UnwrittenBetween(ops, i, |ops|, b) && Reads(ops[i], b)
        ensures s.starts[i] <= Get(s.avail, Clbit(b))
      {
        if i < n {
          assert !Writes(ops[n], b);
          assert ops[..n][i] == ops[i] && s.starts[i] == prev.starts[i];
          UnwrittenInPrefix(ops, i, n, b, n);
          assert prev.starts[i] <= Get(prev.avail, Clbit(b));
        } else {
          StepConditional(prev.avail, ops[n], durs[n], lat);
          assert s.starts[n] == p.start;
        }
      }
    }
  }

  lemma UnwrittenInPrefix(ops: seq<Op>, i: nat, j: nat, b: nat, n: nat)
    requires UnwrittenBetween(ops, i, j, b) && j <= n <= |ops|
    ensures UnwrittenBetween(ops[..n], i, j, b)
  {
    forall k | i < k < j ensures !Writes(ops[..n][k], b) {
      assert ops[..n][k] == ops[k];
    }
  }

  /** In the run, two conditional instructions reading a clbit that nothing writes
      between them start at least `conditional` apart. */
  lemma {:induction false} RunReadsInOrder(ops: seq<Op>, durs: seq<nat>, lat: IOLatency)
    requires |durs| == |ops| && AllSchedulable(ops)
    ensures forall i: nat, j: nat, b: nat :: UnwrittenBetween(ops, i, j, b) && j < |ops| && Reads(ops[i], b) && Reads(ops[j], b) ==>
        Run(ops, durs, lat).starts[i] + lat.conditional <= Run(ops, durs, lat).starts[j]
  {
    if ops != [] {
      var n := |ops| - 1;
      var prev := Run(ops[..n], durs[..n], lat);
      RunReadsInOrder(ops[..n], durs[..n], lat);
      RunReadHeld(ops[..n], durs[..n], lat);
      var p := Step(prev.avail, ops[n], durs[n], lat);
      var s := Run(ops, durs, lat);
      assert s == State(p.avail, prev.starts + [p.start]);
      forall i: nat, j: nat, b: nat | UnwrittenBetween(ops, i, j, b) && j < |ops| && Reads(ops[i], b) && Reads(ops[j], b)
        ensures s.starts[i] + lat.conditional <= s.starts[j]
      {
        UnwrittenInPrefix(ops, i, j, b, n);
        assert ops[..n][i] == ops[i] && s.starts[i] == prev.starts[i];
        if j < n {
          assert ops[..n][j] == ops[j] && s.starts[j] == prev.starts[j];
        } else {
          assert prev.starts[i] <= Get(prev.avail, Clbit(b));
          StepConditional(prev.avail, ops[n], durs[n], lat);
        }
      }
    }
  }

  /** In the run, a measure overwriting a clbit that a conditional instruction
      read before it, with no write between the two, starts no earlier than
      `clbitWrite` before the read. */
  lemma {:induction false} RunReadsBeforeWrite(ops: seq<Op>, durs: seq<nat>, lat: IOLatency)
    requires |durs| == |ops| && AllSchedulable(ops)
    ensures forall i: nat, j: nat, b: nat :: UnwrittenBetween(ops, i, j, b) && j < |ops| && Reads(ops[i], b) && Writes(ops[j], b) ==>
        Run(ops, durs, lat).starts[i] <= Run(ops, durs, lat).starts[j] + lat.clbitWrite
  {
    if ops != [] {
      var n := |ops| - 1;
      var prev := Run(ops[..n], durs[..n], lat);
      RunReadsBeforeWrite(ops[..n], durs[..n], lat);
      RunReadHeld(ops[..n], durs[..n], lat);
      var p := Step(prev.avail, ops[n], durs[n], lat);
      var s := Run(ops, durs, lat);
      assert s == State(p.avail, prev.starts + [p.start]);
      forall i: nat, j: nat, b: nat | UnwrittenBetween(ops, i, j, b) && j < |ops| && Reads(ops[i], b) && Writes(ops[j], b)
        ensures s.starts[i] <= s.starts[j] + lat.clbitWrite
      {
        UnwrittenInPrefix(ops, i, j, b, n);
        assert ops[..n][i] == ops[i] && s.starts[i] == prev.starts[i];
        if j < n {
          assert ops[..n][j] == ops[j] && s.starts[j] == prev.starts[j];
        } else {
          assert prev.starts[i] <= Get(prev.avail, Clbit(b));
          StepMeasure(prev.avail, ops[n], durs[n], lat);
        }
      }
    }
  }

  /** No wire is held beyond the latest end of an instruction. */
  lemma {:induction false} RunAvailBounded(ops: seq<Op>, durs: seq<nat>, lat: IOLatency)
    requires |durs| == |ops| && AllSchedulable(ops)
    ensures forall w :: Get(Run(ops, durs, lat).avail, w) <= LatestEnd(Run(ops, durs, lat).starts, durs)
  {
    if ops != [] {
      var n := |ops| - 1;
      var prev := Run(ops[..n], durs[..n], lat);
      RunAvailBounded(ops[..n], durs[..n], lat);
      var m := LatestEnd(prev.starts, durs[..n]);
      assert forall w :: Get(Run(ops[..n], durs[..n], lat).avail, w) <= LatestEnd(Run(ops[..n], durs[..n], lat).starts, durs[..n]);
      assert forall w :: Get(prev.avail, w) <= m;
      assert Schedulable(ops[n]);
      StepBounded(prev.avail, ops[n], durs[n], lat, m);
      var p := Step(prev.avail, ops[n], durs[n], lat);
      var s := Run(ops, durs, lat);
      assert s == State(p.avail, prev.starts + [p.start]);
      assert s.starts[..n] == prev.starts;
      LatestEndLast(s.starts, durs);
    }
  }

  lemma StepBounded(a: Avail, op: Op, dur: nat, lat: IOLatency, m: int)
    requires Schedulable(op)
    requires forall w :: Get(a, w) <= m
    ensures var p := Step(a, op, dur, lat);
      forall w :: Get(p.avail, w) <= Max(m, p.start + dur)
  {
    var p := Step(a, op, dur, lat);
    StepChanged(a, op, dur, lat);
    forall w ensures Get(p.avail, w) <= Max(m, p.start + dur) {
      if Get(p.avail, w) != Get(a, w) {
        assert Get(p.avail, w) <= p.start + dur;
      }
    }
  }

  /** The latest availability over the wires of a circuit is the latest end of
      any of its instructions. */
  lemma RunSpan(ops: seq<Op>, durs: seq<nat>, lat: IOLatency, nq: nat, nc: nat)
    requires |durs| == |ops| && AllSchedulable(ops) && nq + nc > 0
    requires forall i :: 0 <= i < |ops| ==> WellFormedOp(ops[i], nq, nc)
    ensures Span(Run(ops, durs, lat).avail, nq, nc) == LatestEnd(Run(ops, durs, lat).starts, durs)
  {
    RunSpanAtMost(ops, durs, lat, nq, nc);
    RunSpanAtLeast(ops, durs, lat, nq, nc);
  }

  lemma RunSpanAtMost(ops: seq<Op>, durs: seq<nat>, lat: IOLatency, nq: nat, nc: nat)
    requires |durs| == |ops| && AllSchedulable(ops) && nq + nc > 0
    ensures Span(Run(ops, durs, lat).avail, nq, nc) <= LatestEnd(Run(ops, durs, lat).starts, durs)
  {
    var st := Run(ops, durs, lat);
    RunAvailBounded(ops, durs, lat);
    SpanFacts(st.avail, nq, nc);
    var w :| InCircuit(w, nq, nc) && Get(st.avail, w) == Span(st.avail, nq, nc);
    assert Get(st.avail, w) <= LatestEnd(st.starts, durs);
  }

  lemma RunSpanAtLeast(ops: seq<Op>, durs: seq<nat>, lat: IOLatency, nq: nat, nc: nat)
    requires |durs| == |ops| && AllSchedulable(ops) && nq + nc > 0
    requires forall i :: 0 <= i < |ops| ==> WellFormedOp(ops[i], nq, nc)
    ensures LatestEnd(Run(ops, durs, lat).starts, durs) <= Span(Run(ops, durs, lat).avail, nq, nc)
  {
    var st := Run(ops, durs, lat);
    var latest := LatestEnd(st.starts, durs);
    if latest == 0 {
      assert 0 <= Span(st.avail, nq, nc) by {
        RunNonNegative(ops, durs, lat);
        SpanFacts(st.avail, nq, nc);
        var w: Wire := if nq > 0 then Qubit(0) else Clbit(0);
        assert InCircuit(w, nq, nc) && Get(st.avail, w) >= 0;
      }
    } else {
      var i :| 0 <= i < |st.starts| && st.starts[i] + durs[i] == latest;
      var q := ops[i].qubits[0];
      assert latest <= Get(st.avail, Qubit(q)) by {
        assert Schedulable(ops[i]) && q in ops[i].qubits;
        RunQubitsHeld(ops, durs, lat);
      }
      assert Get(st.avail, Qubit(q)) <= Span(st.avail, nq, nc) by {
        assert WellFormedOp(ops[i], nq, nc);
        assert InCircuit(Qubit(q), nq, nc);
        SpanFacts(st.avail, nq, nc);
      }
    }
  }

  /** The ASAP circuit duration is the latest end of any instruction. */
  lemma AsapTotal(c: Circuit, durs: seq<nat>, lat: IOLatency)
    requires WellFormed(c) && |durs| == |c.ops|
    ensures Schedule(c, durs, lat).total == LatestEnd(Schedule(c, durs, lat).starts, durs)
  {
    WellFormedSchedulable(c);
    RunSpan(c.ops, durs, lat, c.numQubits, c.numClbits);
  }

  /** The ASAP schedule respects every timing constraint. */
  lemma AsapRespects(c: Circuit, durs: seq<nat>, lat: IOLatency)
    requires WellFormed(c) && |durs| == |c.ops|
    ensures Respects(c.ops, Schedule(c, durs, lat), lat)
  {
    WellFormedSchedulable(c);
    var st := Run(c.ops, durs, lat);
    var s := Schedule(c, durs, lat);
    assert s.starts == st.starts && s.durations == durs;
    AsapTotal(c, durs, lat);
    RunNonNegative(c.ops, durs, lat);
    RunQubitsExclusive(c.ops, durs, lat);
    RunReadsAfterWrite(c.ops, durs, lat);
    RunWritesInOrder(c.ops, durs, lat);
    RunReadsInOrder(c.ops, durs, lat);
    RunReadsBeforeWrite(c.ops, durs, lat);
  }

  /** The instruction that the last one, placed on its qubits alone, waits for. */
  lemma EarliestPredecessor(ops: seq<Op>, durs: seq<nat>, lat: IOLatency) returns (i: nat, q: nat)
    requires |durs| == |ops| && AllSchedulable(ops) && ops != []
    requires QubitsOnly(ops[|ops| - 1])
    requires Run(ops, durs, lat).starts[|ops| - 1] != 0
    ensures i < |ops| - 1 && q in ops[i].qubits && q in ops[|ops| - 1].qubits
    ensures Run(ops[..|ops| - 1], durs[..|ops| - 1], lat).starts[i] + durs[i] == Run(ops, durs, lat).starts[|ops| - 1]
  {
    var n := |ops| - 1;
    var prev := Run(ops[..n], durs[..n], lat);
    RunLast(ops, durs, lat);
    var p := Step(prev.avail, ops[n], durs[n], lat);
    StepTight(prev.avail, ops[n], durs[n], lat);
    q :| q in ops[n].qubits && Get(prev.avail, Qubit(q)) == p.start;
    RunQubitsTight(ops[..n], durs[..n], lat);
    i :| 0 <= i < n && q in ops[..n][i].qubits && prev.starts[i] + durs[..n][i] == Get(prev.avail, Qubit(q));
    assert ops[..n][i] == ops[i] && durs[..n][i] == durs[i];
  }

  /** The earlier instruction that an instruction placed on its qubits alone waits for. */
  lemma RunEarliest(ops: seq<Op>, durs: seq<nat>, lat: IOLatency, j: nat) returns (i: nat, q: nat)
    requires |durs| == |ops| && AllSchedulable(ops) && j < |ops| && QubitsOnly(ops[j])
    requires Run(ops, durs, lat).starts[j] != 0
    ensures i < j && q in ops[i].qubits && q in ops[j].qubits
    ensures Run(ops, durs, lat).starts[i] + durs[i] == Run(ops, durs, lat).starts[j]
  {
    var pre := ops[..j + 1];
    var ds := durs[..j + 1];
    var whole := Run(ops, durs, lat).starts;
    RunPrefix(ops, durs, lat, j + 1);
    RunPrefix(ops, durs, lat, j);
    assert Run(pre, ds, lat).starts[j] == whole[j];
    assert |pre| - 1 == j && pre[..j] == ops[..j] && ds[..j] == durs[..j];
    i, q := EarliestPredecessor(pre, ds, lat);
    assert Run(ops[..j], durs[..j], lat).starts[i] == whole[i];
    assert pre[i] == ops[i] && ds[i] == durs[i] && pre[j] == ops[j];
  }

  /** An unconditional gate or delay, or a barrier on qubits only, is not delayed
      needlessly: it starts at 0 or exactly when an earlier instruction on one of
      its qubits ends. */
  lemma AsapEarliest(c: Circuit, durs: seq<nat>, lat: IOLatency, s: Timing.Schedule, j: nat)
    requires WellFormed(c) && |durs| == |c.ops| && s == Schedule(c, durs, lat)
    requires j < |c.ops| && QubitsOnly(c.ops[j])
    ensures s.starts[j] == 0 ||
      exists i, q :: 0 <= i < j && q in c.ops[i].qubits && q in c.ops[j].qubits && End(s, i) == s.starts[j]
  {
    WellFormedSchedulable(c);
    assert s.starts == Run(c.ops, durs, lat).starts && s.durations == durs;
    if s.starts[j] != 0 {
      var i, q := RunEarliest(c.ops, durs, lat, j);
      assert End(s, i) == s.starts[j];
    }
  }

  /** Running one more instruction places it after the others. */
  lemma RunExtend(ops: seq<Op>, durs: seq<nat>, lat: IOLatency, i: nat, a: Avail, starts: seq<int>)
    requires |durs| == |ops| && AllSchedulable(ops) && i < |ops|
    requires State(a, starts) == Run(ops[..i], durs[..i], lat)
    ensures Run(ops[..i + 1], durs[..i + 1], lat) ==
      State(Step(a, ops[i], durs[i], lat).avail, starts + [Step(a, ops[i], durs[i], lat).start])
  {
    assert ops[..i + 1][..i] == ops[..i] && durs[..i + 1][..i] == durs[..i];
  }

  /** The ASAP pass: resolve every duration (calibration first, then the table),
      then place the instructions. It fails at the first instruction whose
      duration is unknown and otherwise at the first conditional instruction
      that is neither a gate nor a delay. */
  method AsapScheduleAnalysis(c: Circuit, cal: Calibrations, table: DurationTable, lat: IOLatency)
    returns (r: Result<Timing.Schedule>)
    requires WellFormed(c)
    ensures r.Success? <==> AllResolved(cal, table, c.ops) && AllSupported(c.ops)
    ensures r.Success? ==> r.value == Schedule(c, DurationsOf(cal, table, c.ops), lat)
    ensures r.Failure? && !AllResolved(cal, table, c.ops) ==>
      && r.error.UnresolvedDuration? && r.error.index < |c.ops|
      && NodeDuration(cal, table, c.ops[r.error.index]).None?
      && AllResolved(cal, table, c.ops[..r.error.index])
    ensures r.Failure? && AllResolved(cal, table, c.ops) ==>
      && r.error.UnsupportedCondition? && r.error.index < |c.ops|
      && !ConditionSupported(c.ops[r.error.index])
      && AllSupported(c.ops[..r.error.index])
  {
    var resolved := ResolveDurations(cal, table, c.ops);
    if resolved.Failure? {
      return Failure(resolved.error);
    }
    r := PlaceAll(c, resolved.value, lat);
  }

  /** Visit the instructions in program order and place each one by the ASAP rule. */
  method PlaceAll(c: Circuit, durs: seq<nat>, lat: IOLatency) returns (r: Result<Timing.Schedule>)
    requires WellFormed(c) && |durs| == |c.ops|
    ensures r.Success? <==> AllSupported(c.ops)
    ensures r.Success? ==> r.value == Schedule(c, durs, lat)
    ensures r.Failure? ==>
      && r.error.UnsupportedCondition? && r.error.index < |c.ops|
      && !ConditionSupported(c.ops[r.error.index])
      && AllSupported(c.ops[..r.error.index])
  {
    WellFormedSchedulable(c);
    var avail: Avail := map[];
    var starts: seq<int> := [];
    var i := 0;
    while i < |c.ops|
      invariant 0 <= i <= |c.ops|
      invariant AllSupported(c.ops[..i])
      invariant State(avail, starts) == Run(c.ops[..i], durs[..i], lat)
    {
      if !ConditionSupported(c.ops[i]) {
        return Failure(UnsupportedCondition(i));
      }
      var p := Step(avail, c.ops[i], durs[i], lat);
      RunExtend(c.ops, durs, lat, i, avail, starts);
      AllSupportedExtend(c.ops, i);
      avail := p.avail;
      starts := starts + [p.start];
      i := i + 1;
    }
    assert c.ops[..i] == c.ops && durs[..i] == durs;
    r := Success(Timing.Schedule(starts, durs, Span(avail, c.numQubits, c.numClbits)));
  }
}
