/** Two measures writing the same bit on different qubits run one after the
    other, behind an X gate on the first qubit. */
module MeasureAfterMeasure {
  import opened Circuits
  import opened Timing
  import opened Durations
  import opened Constraints
  import opened Padding
  import Asap
  import Alap

  /** The circuit is well formed. */
  lemma TwiceWellFormed(c: Circuit)
    requires c.numQubits == 2 && c.numClbits == 1 && |c.ops| == 3
    requires c.ops[0] == Op(Gate("x"), [0], [], [])
    requires c.ops[1] == Op(Measure, [0], [0], [])
    requires c.ops[2] == Op(Measure, [1], [0], [])
    ensures WellFormed(c)
  {
    assert WellFormedOp(c.ops[0], 2, 1);
    assert WellFormedOp(c.ops[1], 2, 1);
    assert WellFormedOp(c.ops[2], 2, 1);
  }

  /** ASAP from instruction 0 on, given when each wire is free. */
  lemma TwiceAsapFrom0(a: Avail, ops: seq<Op>, durs: seq<nat>)
    requires |ops| == 3 && |durs| == 3
    requires ops[0] == Op(Gate("x"), [0], [], []) && durs[0] == 200
    requires ops[1] == Op(Measure, [0], [0], []) && durs[1] == 1000
    requires ops[2] == Op(Measure, [1], [0], []) && durs[2] == 1000
    requires Get(a, Qubit(0)) == 0 && Get(a, Qubit(1)) == 0 && Get(a, Clbit(0)) == 0
    ensures var r := Asap.RunFrom(a, ops[0..], durs[0..], DefaultLatency);
      r.starts == [0, 200] + ([1200]) && Span(r.avail, 2, 1) == 2200
  {
    var p0 := Asap.Step(a, ops[0], durs[0], DefaultLatency);
    assert p0.start == 0 && Get(p0.avail, Qubit(0)) == 200 && Get(p0.avail, Qubit(1)) == 0 && Get(p0.avail, Clbit(0)) == 0 by {
      assert QubitWires([0]) == [Qubit(0)] && MaxOver(a, [Qubit(0)]) == 0;
    }
    var p1 := Asap.Step(p0.avail, ops[1], durs[1], DefaultLatency);
    assert p1.start == 200 && Get(p1.avail, Qubit(0)) == 1200 && Get(p1.avail, Qubit(1)) == 0 && Get(p1.avail, Clbit(0)) == 1200 by {
      assert QubitWires([0]) == [Qubit(0)] && MaxOver(p0.avail, [Qubit(0)]) == 200 && ClbitWires([0]) == [Clbit(0)] && MaxOver(p0.avail, [Clbit(0)]) == 0;
    }
    Asap.RunFromSteps([a, p0.avail, p1.avail], ops[0..2], durs[0..2], [0, 200], DefaultLatency);
    Asap.RunFromSplit(a, ops, durs, DefaultLatency, 0, 2);
    TwiceAsapFrom2(p1.avail, ops, durs);
  }

  /** ASAP from instruction 2 on, given when each wire is free. */
  lemma TwiceAsapFrom2(a: Avail, ops: seq<Op>, durs: seq<nat>)
    requires |ops| == 3 && |durs| == 3
    requires ops[2] == Op(Measure, [1], [0], []) && durs[2] == 1000
    requires Get(a, Qubit(0)) == 1200 && Get(a, Qubit(1)) == 0 && Get(a, Clbit(0)) == 1200
    ensures var r := Asap.RunFrom(a, ops[2..], durs[2..], DefaultLatency);
      r.starts == [1200] && Span(r.avail, 2, 1) == 2200
  {
    var p2 := Asap.Step(a, ops[2], durs[2], DefaultLatency);
    assert p2.start == 1200 && Get(p2.avail, Qubit(0)) == 1200 && Get(p2.avail, Qubit(1)) == 2200 && Get(p2.avail, Clbit(0)) == 2200 by {
      assert QubitWires([1]) == [Qubit(1)] && MaxOver(a, [Qubit(1)]) == 0 && ClbitWires([0]) == [Clbit(0)] && MaxOver(a, [Clbit(0)]) == 1200;
    }
    Asap.RunFromSteps([a, p2.avail], ops[2..], durs[2..], [1200], DefaultLatency);
    assert Span(p2.avail, 2, 1) == 2200 by {
      assert AllWires(2, 1) == [Qubit(0), Qubit(1), Clbit(0)] && MaxOver(p2.avail, [Clbit(0)]) == 2200 && MaxOver(p2.avail, [Qubit(1), Clbit(0)]) == 2200 && MaxOver(p2.avail, [Qubit(0), Qubit(1), Clbit(0)]) == 2200;
    }
  }

  /** The start times, gathered. */
  lemma TwiceAsapStarts(starts: seq<int>)
    requires starts == [0, 200] + ([1200])
    ensures starts == [0, 200, 1200]
  {
  }

  /** ASAP scheduling starts the instructions at [0, 200, 1200], and the circuit lasts 2200. */
  lemma TwiceAsap(c: Circuit, durs: seq<nat>)
    requires c.numQubits == 2 && c.numClbits == 1 && |c.ops| == 3 && |durs| == 3
    requires c.ops[0] == Op(Gate("x"), [0], [], []) && durs[0] == 200
    requires c.ops[1] == Op(Measure, [0], [0], []) && durs[1] == 1000
    requires c.ops[2] == Op(Measure, [1], [0], []) && durs[2] == 1000
    ensures WellFormed(c)
    ensures Asap.Schedule(c, durs, DefaultLatency) == Timing.Schedule([0, 200, 1200], durs, 2200)
  {
    TwiceWellFormed(c);
    WellFormedSchedulable(c);
    Asap.RunIsRunFrom(c.ops, durs, DefaultLatency);
    assert c.ops[0..] == c.ops && durs[0..] == durs;
    TwiceAsapFrom0(map[], c.ops, durs);
    TwiceAsapStarts(Asap.Run(c.ops, durs, DefaultLatency).starts);
  }

  /** ALAP over the instructions before 1, given when each wire is needed by the later ones. */
  lemma TwiceAlapTo1(a: Avail, ops: seq<Op>, durs: seq<nat>)
    requires |ops| == 3 && |durs| == 3
    requires ops[0] == Op(Gate("x"), [0], [], []) && durs[0] == 200
    requires Get(a, Qubit(0)) == 2000 && Get(a, Qubit(1)) == 1000 && Get(a, Clbit(0)) == 2000
    ensures var r := Alap.RunFrom(a, ops[..1], durs[..1], DefaultLatency);
      r.starts == [2000] && Span(r.avail, 2, 1) == 2200
  {
    var p0 := Alap.Step(a, ops[0], durs[0], DefaultLatency);
    assert p0.start == 2000 && Get(p0.avail, Qubit(0)) == 2200 && Get(p0.avail, Qubit(1)) == 1000 && Get(p0.avail, Clbit(0)) == 2000 by {
      assert QubitWires([0]) == [Qubit(0)] && MaxOver(a, [Qubit(0)]) == 2000;
    }
    Alap.RunFromSteps([p0.avail, a], ops[0..1], durs[0..1], [2000], DefaultLatency);
    Alap.RunFromSplit(a, ops, durs, DefaultLatency, 0, 1);
    assert Span(p0.avail, 2, 1) == 2200 by {
      assert AllWires(2, 1) == [Qubit(0), Qubit(1), Clbit(0)] && MaxOver(p0.avail, [Clbit(0)]) == 2000 && MaxOver(p0.avail, [Qubit(1), Clbit(0)]) == 2000 && MaxOver(p0.avail, [Qubit(0), Qubit(1), Clbit(0)]) == 2200;
    }
  }

  /** ALAP over the instructions before 3, given when each wire is needed by the later ones. */
  lemma TwiceAlapTo3(a: Avail, ops: seq<Op>, durs: seq<nat>)
    requires |ops| == 3 && |durs| == 3
    requires ops[0] == Op(Gate("x"), [0], [], []) && durs[0] == 200
    requires ops[1] == Op(Measure, [0], [0], []) && durs[1] == 1000
    requires ops[2] == Op(Measure, [1], [0], []) && durs[2] == 1000
    requires Get(a, Qubit(0)) == 0 && Get(a, Qubit(1)) == 0 && Get(a, Clbit(0)) == 0
    ensures var r := Alap.RunFrom(a, ops[..3], durs[..3], DefaultLatency);
      r.starts == ([2000]) + [1000, 0] && Span(r.avail, 2, 1) == 2200
  {
    var p2 := Alap.Step(a, ops[2], durs[2], DefaultLatency);
    assert p2.start == 0 && Get(p2.avail, Qubit(0)) == 0 && Get(p2.avail, Qubit(1)) == 1000 && Get(p2.avail, Clbit(0)) == 1000 by {
      assert QubitWires([1]) == [Qubit(1)] && MaxOver(a, [Qubit(1)]) == 0 && ClbitWires([0]) == [Clbit(0)] && MaxOver(a, [Clbit(0)]) == 0;
    }
    var p1 := Alap.Step(p2.avail, ops[1], durs[1], DefaultLatency);
    assert p1.start == 1000 && Get(p1.avail, Qubit(0)) == 2000 && Get(p1.avail, Qubit(1)) == 1000 && Get(p1.avail, Clbit(0)) == 2000 by {
      assert QubitWires([0]) == [Qubit(0)] && MaxOver(p2.avail, [Qubit(0)]) == 0 && ClbitWires([0]) == [Clbit(0)] && MaxOver(p2.avail, [Clbit(0)]) == 1000;
    }
    Alap.RunFromSteps([p1.avail, p2.avail, a], ops[1..3], durs[1..3], [1000, 0], DefaultLatency);
    Alap.RunFromSplit(a, ops, durs, DefaultLatency, 1, 3);
    TwiceAlapTo1(p1.avail, ops, durs);
  }

  /** Start times counted from the beginning. */
  lemma TwiceAlapFlip(ends: seq<int>, durs: seq<nat>)
    requires ends == ([2000]) + [1000, 0] && |durs| == 3
    requires durs[0] == 200
    requires durs[1] == 1000
    requires durs[2] == 1000
    ensures Alap.Flip(ends, durs, 2200) == [0, 200, 1200]
  {
  }
  /** ALAP scheduling starts the instructions at [0, 200, 1200], and the circuit lasts 2200. */
  lemma TwiceAlap(c: Circuit, durs: seq<nat>)
    requires c.numQubits == 2 && c.numClbits == 1 && |c.ops| == 3 && |durs| == 3
    requires c.ops[0] == Op(Gate("x"), [0], [], []) && durs[0] == 200
    requires c.ops[1] == Op(Measure, [0], [0], []) && durs[1] == 1000
    requires c.ops[2] == Op(Measure, [1], [0], []) && durs[2] == 1000
    ensures WellFormed(c)
    ensures Alap.Schedule(c, durs, DefaultLatency) == Timing.Schedule([0, 200, 1200], durs, 2200)
  {
    TwiceWellFormed(c);
    WellFormedSchedulable(c);
    Alap.RunIsRunFrom(c.ops, durs, DefaultLatency);
    assert c.ops[..3] == c.ops && durs[..3] == durs;
    TwiceAlapTo3(map[], c.ops, durs);
    TwiceAlapFlip(Alap.Run(c.ops, durs, DefaultLatency).starts, durs);
  }

  /** Padding from instruction 0 on, given each qubit's cursor. */
  lemma TwiceAsapPadFrom0(cur: Avail, o: seq<Timed>, ops: seq<Op>, starts: seq<int>, durs: seq<nat>)
    requires |ops| == 3 && |starts| == 3 && |durs| == 3
    requires ops[0] == Op(Gate("x"), [0], [], []) && starts[0] == 0 && durs[0] == 200
    requires ops[1] == Op(Measure, [0], [0], []) && starts[1] == 200 && durs[1] == 1000
    requires ops[2] == Op(Measure, [1], [0], []) && starts[2] == 1200 && durs[2] == 1000
    requires Get(cur, Qubit(0)) == 0 && Get(cur, Qubit(1)) == 0
    ensures var r := PadFrom(PadState(cur, o), ops[0..], starts[0..], durs[0..], None);
      r.out == ((o + [Timed(Op(Gate("x"), [0], [], []), 0, 200)]) + [Timed(Op(Measure, [0], [0], []), 200, 1000)]) + [Idle(1, 0, 1200), Timed(Op(Measure, [1], [0], []), 1200, 1000)] && Get(r.cursor, Qubit(0)) == 1200 && Get(r.cursor, Qubit(1)) == 2200
  {
    PadFromAt(PadState(cur, o), ops, starts, durs, None, 0);
    var s0 := PlaceOp(PadState(cur, []), ops[0], starts[0], durs[0], None);
    assert s0.out == [Timed(Op(Gate("x"), [0], [], []), 0, 200)] && Get(s0.cursor, Qubit(0)) == 200 && Get(s0.cursor, Qubit(1)) == 0;
    PlaceOpOut(cur, o, ops[0], starts[0], durs[0], None);
    TwiceAsapPadFrom1(s0.cursor, o + [Timed(Op(Gate("x"), [0], [], []), 0, 200)], ops, starts, durs);
  }

  /** Padding from instruction 1 on, given each qubit's cursor. */
  lemma TwiceAsapPadFrom1(cur: Avail, o: seq<Timed>, ops: seq<Op>, starts: seq<int>, durs: seq<nat>)
    requires |ops| == 3 && |starts| == 3 && |durs| == 3
    requires ops[1] == Op(Measure, [0], [0], []) && starts[1] == 200 && durs[1] == 1000
    requires ops[2] == Op(Measure, [1], [0], []) && starts[2] == 1200 && durs[2] == 1000
    requires Get(cur, Qubit(0)) == 200 && Get(cur, Qubit(1)) == 0
    ensures var r := PadFrom(PadState(cur, o), ops[1..], starts[1..], durs[1..], None);
      r.out == (o + [Timed(Op(Measure, [0], [0], []), 200, 1000)]) + [Idle(1, 0, 1200), Timed(Op(Measure, [1], [0], []), 1200, 1000)] && Get(r.cursor, Qubit(0)) == 1200 && Get(r.cursor, Qubit(1)) == 2200
  {
    PadFromAt(PadState(cur, o), ops, starts, durs, None, 1);
    var s1 := PlaceOp(PadState(cur, []), ops[1], starts[1], durs[1], None);
    assert s1.out == [Timed(Op(Measure, [0], [0], []), 200, 1000)] && Get(s1.cursor, Qubit(0)) == 1200 && Get(s1.cursor, Qubit(1)) == 0;
    PlaceOpOut(cur, o, ops[1], starts[1], durs[1], None);
    TwiceAsapPadFrom2(s1.cursor, o + [Timed(Op(Measure, [0], [0], []), 200, 1000)], ops, starts, durs);
  }

  /** Padding from instruction 2 on, given each qubit's cursor. */
  lemma TwiceAsapPadFrom2(cur: Avail, o: seq<Timed>, ops: seq<Op>, starts: seq<int>, durs: seq<nat>)
    requires |ops| == 3 && |starts| == 3 && |durs| == 3
    requires ops[2] == Op(Measure, [1], [0], []) && starts[2] == 1200 && durs[2] == 1000
    requires Get(cur, Qubit(0)) == 1200 && Get(cur, Qubit(1)) == 0
    ensures var r := PadFrom(PadState(cur, o), ops[2..], starts[2..], durs[2..], None);
      r.out == o + [Idle(1, 0, 1200), Timed(Op(Measure, [1], [0], []), 1200, 1000)] && Get(r.cursor, Qubit(0)) == 1200 && Get(r.cursor, Qubit(1)) == 2200
  {
    PadFromAt(PadState(cur, o), ops, starts, durs, None, 2);
    var s2 := PlaceOp(PadState(cur, []), ops[2], starts[2], durs[2], None);
    assert s2.out == [Idle(1, 0, 1200), Timed(Op(Measure, [1], [0], []), 1200, 1000)] && Get(s2.cursor, Qubit(0)) == 1200 && Get(s2.cursor, Qubit(1)) == 2200;
    PlaceOpOut(cur, o, ops[2], starts[2], durs[2], None);
    assert ops[3..] == [] && starts[3..] == [] && durs[3..] == [];
  }

  /** The latest end of any instruction. */
  lemma TwiceAsapPadLatestEnd(starts: seq<int>, durs: seq<nat>)
    requires starts == [0, 200, 1200] && |durs| == 3
    requires durs[0] == 200
    requires durs[1] == 1000
    requires durs[2] == 1000
    ensures LatestEnd(starts, durs) == 2200
  {
  }

  /** The delays after the last instruction. */
  lemma TwiceAsapPadEndGaps(cur: Avail)
    requires Get(cur, Qubit(0)) == 1200 && Get(cur, Qubit(1)) == 2200
    ensures EndGaps(cur, 2, 2200, None) == [Idle(0, 1200, 2200)]
  {
    assert true && EndGaps(cur, 1, 2200, None) == [Idle(0, 1200, 2200)];
  }

  /** The padded instructions in order. */
  lemma TwiceAsapPaddedOut(body: seq<Timed>, tail: seq<Timed>)
    requires body == (([] + [Timed(Op(Gate("x"), [0], [], []), 0, 200)]) + [Timed(Op(Measure, [0], [0], []), 200, 1000)]) + [Idle(1, 0, 1200), Timed(Op(Measure, [1], [0], []), 1200, 1000)] && tail == [Idle(0, 1200, 2200)]
    ensures body + tail == [Timed(Op(Gate("x"), [0], [], []), 0, 200), Timed(Op(Measure, [0], [0], []), 200, 1000), Idle(1, 0, 1200), Timed(Op(Measure, [1], [0], []), 1200, 1000), Idle(0, 1200, 2200)]
  {
  }

  /** Padding the ASAP schedule gives these instructions, in this order, and the duration 2200. */
  lemma TwiceAsapPadded(c: Circuit, durs: seq<nat>)
    requires c.numQubits == 2 && c.numClbits == 1 && |c.ops| == 3 && |durs| == 3
    requires c.ops[0] == Op(Gate("x"), [0], [], []) && durs[0] == 200
    requires c.ops[1] == Op(Measure, [0], [0], []) && durs[1] == 1000
    requires c.ops[2] == Op(Measure, [1], [0], []) && durs[2] == 1000
    ensures Pad(c, Some(StartTimes(Asap.Schedule(c, durs, DefaultLatency))), durs, None, true) == Success(Padded([Timed(Op(Gate("x"), [0], [], []), 0, 200), Timed(Op(Measure, [0], [0], []), 200, 1000), Idle(1, 0, 1200), Timed(Op(Measure, [1], [0], []), 1200, 1000), Idle(0, 1200, 2200)], 2200))
  {
    TwiceAsap(c, durs);
    var s := Timing.Schedule([0, 200, 1200], durs, 2200);
    TwiceAsapPadFrom0(map[], [], c.ops, s.starts, durs);
    assert c.ops[0..] == c.ops && s.starts[0..] == s.starts && durs[0..] == durs;
    var st := PadFrom(PadState(map[], []), c.ops, s.starts, durs, None);
    TwiceAsapPadLatestEnd(s.starts, durs);
    PadOfSchedule(c, s, None, true, st, 2200);
    TwiceAsapPadEndGaps(st.cursor);
    TwiceAsapPaddedOut(st.out, [Idle(0, 1200, 2200)]);
  }

  /** The padded instructions in order. */
  lemma TwiceAlapPaddedOut(body: seq<Timed>, tail: seq<Timed>)
    requires body == (([] + [Timed(Op(Gate("x"), [0], [], []), 0, 200)]) + [Timed(Op(Measure, [0], [0], []), 200, 1000)]) + [Idle(1, 0, 1200), Timed(Op(Measure, [1], [0], []), 1200, 1000)] && tail == [Idle(0, 1200, 2200)]
    ensures body + tail == [Timed(Op(Gate("x"), [0], [], []), 0, 200), Timed(Op(Measure, [0], [0], []), 200, 1000), Idle(1, 0, 1200), Timed(Op(Measure, [1], [0], []), 1200, 1000), Idle(0, 1200, 2200)]
  {
  }

  /** Padding the ALAP schedule gives these instructions, in this order, and the duration 2200. */
  lemma TwiceAlapPadded(c: Circuit, durs: seq<nat>)
    requires c.numQubits == 2 && c.numClbits == 1 && |c.ops| == 3 && |durs| == 3
    requires c.ops[0] == Op(Gate("x"), [0], [], []) && durs[0] == 200
    requires c.ops[1] == Op(Measure, [0], [0], []) && durs[1] == 1000
    requires c.ops[2] == Op(Measure, [1], [0], []) && durs[2] == 1000
    ensures Pad(c, Some(StartTimes(Alap.Schedule(c, durs, DefaultLatency))), durs, None, true) == Success(Padded([Timed(Op(Gate("x"), [0], [], []), 0, 200), Timed(Op(Measure, [0], [0], []), 200, 1000), Idle(1, 0, 1200), Timed(Op(Measure, [1], [0], []), 1200, 1000), Idle(0, 1200, 2200)], 2200))
  {
    TwiceAlap(c, durs);
    var s := Timing.Schedule([0, 200, 1200], durs, 2200);
    TwiceAsapPadFrom0(map[], [], c.ops, s.starts, durs);
    assert c.ops[0..] == c.ops && s.starts[0..] == s.starts && durs[0..] == durs;
    var st := PadFrom(PadState(map[], []), c.ops, s.starts, durs, None);
    TwiceAsapPadLatestEnd(s.starts, durs);
    PadOfSchedule(c, s, None, true, st, 2200);
    TwiceAsapPadEndGaps(st.cursor);
    TwiceAlapPaddedOut(st.out, [Idle(0, 1200, 2200)]);
  }

  /** The duration of each instruction, as the scheduling passes look it up. */
  lemma TwiceDurations(c: Circuit)
    requires |c.ops| == 3
    requires c.ops[0] == Op(Gate("x"), [0], [], [])
    requires c.ops[1] == Op(Measure, [0], [0], [])
    requires c.ops[2] == Op(Measure, [1], [0], [])
    ensures AllResolved(map[], FromEntries([Entry("x", None, 200), Entry("measure", None, 1000)]), c.ops) && DurationsOf(map[], FromEntries([Entry("x", None, 200), Entry("measure", None, 1000)]), c.ops) == [200, 1000, 1000]
  {
    var t := FromEntries([Entry("x", None, 200), Entry("measure", None, 1000)]);
    assert NodeDuration(map[], t, c.ops[0]) == Some(200);
    assert NodeDuration(map[], t, c.ops[1]) == Some(1000);
    assert NodeDuration(map[], t, c.ops[2]) == Some(1000);
    DurationsAre(map[], t, c.ops, [200, 1000, 1000]);
  }
}
