/** A measure followed by a gate on another qubit conditioned on the measured bit:
    the gate waits for the measure to end, in either scheduling mode. */
module MeasureThenConditional {
  import opened Circuits
  import opened Timing
  import opened Durations
  import opened Constraints
  import opened Padding
  import Asap
  import Alap

  /** The circuit is well formed. */
  lemma CondWellFormed(c: Circuit)
    requires c.numQubits == 2 && c.numClbits == 1 && |c.ops| == 2
    requires c.ops[0] == Op(Measure, [0], [0], [])
    requires c.ops[1] == Op(Gate("x"), [1], [], [0])
    ensures WellFormed(c)
  {
    assert WellFormedOp(c.ops[0], 2, 1);
    assert WellFormedOp(c.ops[1], 2, 1);
  }

  /** ASAP from instruction 0 on, given when each wire is free. */
  lemma CondAsapFrom0(a: Avail, ops: seq<Op>, durs: seq<nat>)
    requires |ops| == 2 && |durs| == 2
    requires ops[0] == Op(Measure, [0], [0], []) && durs[0] == 1000
    requires ops[1] == Op(Gate("x"), [1], [], [0]) && durs[1] == 200
    requires Get(a, Qubit(0)) == 0 && Get(a, Qubit(1)) == 0 && Get(a, Clbit(0)) == 0
    ensures var r := Asap.RunFrom(a, ops[0..], durs[0..], DefaultLatency);
      r.starts == [0, 1000] && Span(r.avail, 2, 1) == 1200
  {
    var p0 := Asap.Step(a, ops[0], durs[0], DefaultLatency);
    assert p0.start == 0 && Get(p0.avail, Qubit(0)) == 1000 && Get(p0.avail, Qubit(1)) == 0 && Get(p0.avail, Clbit(0)) == 1000 by {
      assert QubitWires([0]) == [Qubit(0)] && MaxOver(a, [Qubit(0)]) == 0 && ClbitWires([0]) == [Clbit(0)] && MaxOver(a, [Clbit(0)]) == 0;
    }
    var p1 := Asap.Step(p0.avail, ops[1], durs[1], DefaultLatency);
    assert p1.start == 1000 && Get(p1.avail, Qubit(0)) == 1000 && Get(p1.avail, Qubit(1)) == 1200 && Get(p1.avail, Clbit(0)) == 1000 by {
      assert QubitWires([1]) == [Qubit(1)] && MaxOver(p0.avail, [Qubit(1)]) == 0 && ClbitWires([0]) == [Clbit(0)] && MaxOver(p0.avail, [Clbit(0)]) == 1000;
    }
    Asap.RunFromSteps([a, p0.avail, p1.avail], ops[0..], durs[0..], [0, 1000], DefaultLatency);
    assert Span(p1.avail, 2, 1) == 1200 by {
      assert AllWires(2, 1) == [Qubit(0), Qubit(1), Clbit(0)] && MaxOver(p1.avail, [Clbit(0)]) == 1000 && MaxOver(p1.avail, [Qubit(1), Clbit(0)]) == 1200 && MaxOver(p1.avail, [Qubit(0), Qubit(1), Clbit(0)]) == 1200;
    }
  }

  /** ASAP scheduling starts the instructions at [0, 1000], and the circuit lasts 1200. */
  lemma CondAsap(c: Circuit, durs: seq<nat>)
    requires c.numQubits == 2 && c.numClbits == 1 && |c.ops| == 2 && |durs| == 2
    requires c.ops[0] == Op(Measure, [0], [0], []) && durs[0] == 1000
    requires c.ops[1] == Op(Gate("x"), [1], [], [0]) && durs[1] == 200
    ensures WellFormed(c)
    ensures Asap.Schedule(c, durs, DefaultLatency) == Timing.Schedule([0, 1000], durs, 1200)
  {
    CondWellFormed(c);
    WellFormedSchedulable(c);
    Asap.RunIsRunFrom(c.ops, durs, DefaultLatency);
    assert c.ops[0..] == c.ops && durs[0..] == durs;
    CondAsapFrom0(map[], c.ops, durs);
  }

  /** ALAP over the instructions before 2, given when each wire is needed by the later ones. */
  lemma CondAlapTo2(a: Avail, ops: seq<Op>, durs: seq<nat>)
    requires |ops| == 2 && |durs| == 2
    requires ops[0] == Op(Measure, [0], [0], []) && durs[0] == 1000
    requires ops[1] == Op(Gate("x"), [1], [], [0]) && durs[1] == 200
    requires Get(a, Qubit(0)) == 0 && Get(a, Qubit(1)) == 0 && Get(a, Clbit(0)) == 0
    ensures var r := Alap.RunFrom(a, ops[..2], durs[..2], DefaultLatency);
      r.starts == [200, 0] && Span(r.avail, 2, 1) == 1200
  {
    var p1 := Alap.Step(a, ops[1], durs[1], DefaultLatency);
    assert p1.start == 0 && Get(p1.avail, Qubit(0)) == 0 && Get(p1.avail, Qubit(1)) == 200 && Get(p1.avail, Clbit(0)) == 200 by {
      assert QubitWires([1]) == [Qubit(1)] && MaxOver(a, [Qubit(1)]) == 0 && ClbitWires([0]) == [Clbit(0)] && MaxOver(a, [Clbit(0)]) == 0;
    }
    var p0 := Alap.Step(p1.avail, ops[0], durs[0], DefaultLatency);
    assert p0.start == 200 && Get(p0.avail, Qubit(0)) == 1200 && Get(p0.avail, Qubit(1)) == 200 && Get(p0.avail, Clbit(0)) == 1200 by {
      assert QubitWires([0]) == [Qubit(0)] && MaxOver(p1.avail, [Qubit(0)]) == 0 && ClbitWires([0]) == [Clbit(0)] && MaxOver(p1.avail, [Clbit(0)]) == 200;
    }
    Alap.RunFromSteps([p0.avail, p1.avail, a], ops[0..2], durs[0..2], [200, 0], DefaultLatency);
    Alap.RunFromSplit(a, ops, durs, DefaultLatency, 0, 2);
    assert Span(p0.avail, 2, 1) == 1200 by {
      assert AllWires(2, 1) == [Qubit(0), Qubit(1), Clbit(0)] && MaxOver(p0.avail, [Clbit(0)]) == 1200 && MaxOver(p0.avail, [Qubit(1), Clbit(0)]) == 1200 && MaxOver(p0.avail, [Qubit(0), Qubit(1), Clbit(0)]) == 1200;
    }
  }

  /** Start times counted from the beginning. */
  lemma CondAlapFlip(ends: seq<int>, durs: seq<nat>)
    requires ends == [200, 0] && |durs| == 2
    requires durs[0] == 1000
    requires durs[1] == 200
    ensures Alap.Flip(ends, durs, 1200) == [0, 1000]
  {
  }
  /** ALAP scheduling starts the instructions at [0, 1000], and the circuit lasts 1200. */
  lemma CondAlap(c: Circuit, durs: seq<nat>)
    requires c.numQubits == 2 && c.numClbits == 1 && |c.ops| == 2 && |durs| == 2
    requires c.ops[0] == Op(Measure, [0], [0], []) && durs[0] == 1000
    requires c.ops[1] == Op(Gate("x"), [1], [], [0]) && durs[1] == 200
    ensures WellFormed(c)
    ensures Alap.Schedule(c, durs, DefaultLatency) == Timing.Schedule([0, 1000], durs, 1200)
  {
    CondWellFormed(c);
    WellFormedSchedulable(c);
    Alap.RunIsRunFrom(c.ops, durs, DefaultLatency);
    assert c.ops[..2] == c.ops && durs[..2] == durs;
    CondAlapTo2(map[], c.ops, durs);
    CondAlapFlip(Alap.Run(c.ops, durs, DefaultLatency).starts, durs);
  }

  /** Padding from instruction 0 on, given each qubit's cursor. */
  lemma CondAsapPadFrom0(cur: Avail, o: seq<Timed>, ops: seq<Op>, starts: seq<int>, durs: seq<nat>)
    requires |ops| == 2 && |starts| == 2 && |durs| == 2
    requires ops[0] == Op(Measure, [0], [0], []) && starts[0] == 0 && durs[0] == 1000
    requires ops[1] == Op(Gate("x"), [1], [], [0]) && starts[1] == 1000 && durs[1] == 200
    requires Get(cur, Qubit(0)) == 0 && Get(cur, Qubit(1)) == 0
    ensures var r := PadFrom(PadState(cur, o), ops[0..], starts[0..], durs[0..], None);
      r.out == (o + [Timed(Op(Measure, [0], [0], []), 0, 1000)]) + [Idle(1, 0, 1000), Timed(Op(Gate("x"), [1], [], [0]), 1000, 200)] && Get(r.cursor, Qubit(0)) == 1000 && Get(r.cursor, Qubit(1)) == 1200
  {
    PadFromAt(PadState(cur, o), ops, starts, durs, None, 0);
    var s0 := PlaceOp(PadState(cur, []), ops[0], starts[0], durs[0], None);
    assert s0.out == [Timed(Op(Measure, [0], [0], []), 0, 1000)] && Get(s0.cursor, Qubit(0)) == 1000 && Get(s0.cursor, Qubit(1)) == 0;
    PlaceOpOut(cur, o, ops[0], starts[0], durs[0], None);
    CondAsapPadFrom1(s0.cursor, o + [Timed(Op(Measure, [0], [0], []), 0, 1000)], ops, starts, durs);
  }

  /** Padding from instruction 1 on, given each qubit's cursor. */
  lemma CondAsapPadFrom1(cur: Avail, o: seq<Timed>, ops: seq<Op>, starts: seq<int>, durs: seq<nat>)
    requires |ops| == 2 && |starts| == 2 && |durs| == 2
    requires ops[1] == Op(Gate("x"), [1], [], [0]) && starts[1] == 1000 && durs[1] == 200
    requires Get(cur, Qubit(0)) == 1000 && Get(cur, Qubit(1)) == 0
    ensures var r := PadFrom(PadState(cur, o), ops[1..], starts[1..], durs[1..], None);
      r.out == o + [Idle(1, 0, 1000), Timed(Op(Gate("x"), [1], [], [0]), 1000, 200)] && Get(r.cursor, Qubit(0)) == 1000 && Get(r.cursor, Qubit(1)) == 1200
  {
    PadFromAt(PadState(cur, o), ops, starts, durs, None, 1);
    var s1 := PlaceOp(PadState(cur, []), ops[1], starts[1], durs[1], None);
    assert s1.out == [Idle(1, 0, 1000), Timed(Op(Gate("x"), [1], [], [0]), 1000, 200)] && Get(s1.cursor, Qubit(0)) == 1000 && Get(s1.cursor, Qubit(1)) == 1200;
    PlaceOpOut(cur, o, ops[1], starts[1], durs[1], None);
    assert ops[2..] == [] && starts[2..] == [] && durs[2..] == [];
  }

  /** The latest end of any instruction. */
  lemma CondAsapPadLatestEnd(starts: seq<int>, durs: seq<nat>)
    requires starts == [0, 1000] && |durs| == 2
    requires durs[0] == 1000
    requires durs[1] == 200
    ensures LatestEnd(starts, durs) == 1200
  {
  }

  /** The delays after the last instruction. */
  lemma CondAsapPadEndGaps(cur: Avail)
    requires Get(cur, Qubit(0)) == 1000 && Get(cur, Qubit(1)) == 1200
    ensures EndGaps(cur, 2, 1200, None) == [Idle(0, 1000, 1200)]
  {
    assert true && EndGaps(cur, 1, 1200, None) == [Idle(0, 1000, 1200)];
  }

  /** The padded instructions in order. */
  lemma CondAsapPaddedOut(body: seq<Timed>, tail: seq<Timed>)
    requires body == ([] + [Timed(Op(Measure, [0], [0], []), 0, 1000)]) + [Idle(1, 0, 1000), Timed(Op(Gate("x"), [1], [], [0]), 1000, 200)] && tail == [Idle(0, 1000, 1200)]
    ensures body + tail == [Timed(Op(Measure, [0], [0], []), 0, 1000), Idle(1, 0, 1000), Timed(Op(Gate("x"), [1], [], [0]), 1000, 200), Idle(0, 1000, 1200)]
  {
  }

  /** Padding the ASAP schedule gives these instructions, in this order, and the duration 1200. */
  lemma CondAsapPadded(c: Circuit, durs: seq<nat>)
    requires c.numQubits == 2 && c.numClbits == 1 && |c.ops| == 2 && |durs| == 2
    requires c.ops[0] == Op(Measure, [0], [0], []) && durs[0] == 1000
    requires c.ops[1] == Op(Gate("x"), [1], [], [0]) && durs[1] == 200
    ensures Pad(c, Some(StartTimes(Asap.Schedule(c, durs, DefaultLatency))), durs, None, true) == Success(Padded([Timed(Op(Measure, [0], [0], []), 0, 1000), Idle(1, 0, 1000), Timed(Op(Gate("x"), [1], [], [0]), 1000, 200), Idle(0, 1000, 1200)], 1200))
  {
    CondAsap(c, durs);
    var s := Timing.Schedule([0, 1000], durs, 1200);
    CondAsapPadFrom0(map[], [], c.ops, s.starts, durs);
    assert c.ops[0..] == c.ops && s.starts[0..] == s.starts && durs[0..] == durs;
    var st := PadFrom(PadState(map[], []), c.ops, s.starts, durs, None);
    CondAsapPadLatestEnd(s.starts, durs);
    PadOfSchedule(c, s, None, true, st, 1200);
    CondAsapPadEndGaps(st.cursor);
    CondAsapPaddedOut(st.out, [Idle(0, 1000, 1200)]);
  }

  /** The padded instructions in order. */
  lemma CondAlapPaddedOut(body: seq<Timed>, tail: seq<Timed>)
    requires body == ([] + [Timed(Op(Measure, [0], [0], []), 0, 1000)]) + [Idle(1, 0, 1000), Timed(Op(Gate("x"), [1], [], [0]), 1000, 200)] && tail == [Idle(0, 1000, 1200)]
    ensures body + tail == [Timed(Op(Measure, [0], [0], []), 0, 1000), Idle(1, 0, 1000), Timed(Op(Gate("x"), [1], [], [0]), 1000, 200), Idle(0, 1000, 1200)]
  {
  }

  /** Padding the ALAP schedule gives these instructions, in this order, and the duration 1200. */
  lemma CondAlapPadded(c: Circuit, durs: seq<nat>)
    requires c.numQubits == 2 && c.numClbits == 1 && |c.ops| == 2 && |durs| == 2
    requires c.ops[0] == Op(Measure, [0], [0], []) && durs[0] == 1000
    requires c.ops[1] == Op(Gate("x"), [1], [], [0]) && durs[1] == 200
    ensures Pad(c, Some(StartTimes(Alap.Schedule(c, durs, DefaultLatency))), durs, None, true) == Success(Padded([Timed(Op(Measure, [0], [0], []), 0, 1000), Idle(1, 0, 1000), Timed(Op(Gate("x"), [1], [], [0]), 1000, 200), Idle(0, 1000, 1200)], 1200))
  {
    CondAlap(c, durs);
    var s := Timing.Schedule([0, 1000], durs, 1200);
    CondAsapPadFrom0(map[], [], c.ops, s.starts, durs);
    assert c.ops[0..] == c.ops && s.starts[0..] == s.starts && durs[0..] == durs;
    var st := PadFrom(PadState(map[], []), c.ops, s.starts, durs, None);
    CondAsapPadLatestEnd(s.starts, durs);
    PadOfSchedule(c, s, None, true, st, 1200);
    CondAsapPadEndGaps(st.cursor);
    CondAlapPaddedOut(st.out, [Idle(0, 1000, 1200)]);
  }

  /** The duration of each instruction, as the scheduling passes look it up. */
  lemma CondDurations(c: Circuit)
    requires |c.ops| == 2
    requires c.ops[0] == Op(Measure, [0], [0], [])
    requires c.ops[1] == Op(Gate("x"), [1], [], [0])
    ensures AllResolved(map[], FromEntries([Entry("x", None, 200), Entry("measure", None, 1000)]), c.ops) && DurationsOf(map[], FromEntries([Entry("x", None, 200), Entry("measure", None, 1000)]), c.ops) == [1000, 200]
  {
    var t := FromEntries([Entry("x", None, 200), Entry("measure", None, 1000)]);
    assert NodeDuration(map[], t, c.ops[0]) == Some(1000);
    assert NodeDuration(map[], t, c.ops[1]) == Some(200);
    DurationsAre(map[], t, c.ops, [1000, 200]);
  }
}
