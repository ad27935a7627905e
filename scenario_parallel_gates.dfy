/** Gates of different lengths on two qubits, each followed by a measure: ASAP
    starts both gates at once, ALAP ends them together. */
module ParallelGates {
  import opened Circuits
  import opened Timing
  import opened Durations
  import opened Constraints
  import opened Padding
  import Asap
  import Alap

  /** The circuit is well formed. */
  lemma ParWellFormed(c: Circuit)
    requires c.numQubits == 2 && c.numClbits == 2 && |c.ops| == 4
    requires c.ops[0] == Op(Gate("x"), [0], [], [])
    requires c.ops[1] == Op(Gate("x"), [1], [], [])
    requires c.ops[2] == Op(Measure, [0], [0], [])
    requires c.ops[3] == Op(Measure, [1], [1], [])
    ensures WellFormed(c)
  {
    assert WellFormedOp(c.ops[0], 2, 2);
    assert WellFormedOp(c.ops[1], 2, 2);
    assert WellFormedOp(c.ops[2], 2, 2);
    assert WellFormedOp(c.ops[3], 2, 2);
  }

  /** ASAP from instruction 0 on, given when each wire is free. */
  lemma ParAsapFrom0(a: Avail, ops: seq<Op>, durs: seq<nat>)
    requires |ops| == 4 && |durs| == 4
    requires ops[0] == Op(Gate("x"), [0], [], []) && durs[0] == 200
    requires ops[1] == Op(Gate("x"), [1], [], []) && durs[1] == 400
    requires ops[2] == Op(Measure, [0], [0], []) && durs[2] == 1000
    requires ops[3] == Op(Measure, [1], [1], []) && durs[3] == 1000
    requires Get(a, Qubit(0)) == 0 && Get(a, Qubit(1)) == 0 && Get(a, Clbit(0)) == 0 && Get(a, Clbit(1)) == 0
    ensures var r := Asap.RunFrom(a, ops[0..], durs[0..], DefaultLatency);
      r.starts == [0, 0] + ([200, 400]) && Span(r.avail, 2, 2) == 1400
  {
    var p0 := Asap.Step(a, ops[0], durs[0], DefaultLatency);
    assert p0.start == 0 && Get(p0.avail, Qubit(0)) == 200 && Get(p0.avail, Qubit(1)) == 0 && Get(p0.avail, Clbit(0)) == 0 && Get(p0.avail, Clbit(1)) == 0 by {
      assert QubitWires([0]) == [Qubit(0)] && MaxOver(a, [Qubit(0)]) == 0;
    }
    var p1 := Asap.Step(p0.avail, ops[1], durs[1], DefaultLatency);
    assert p1.start == 0 && Get(p1.avail, Qubit(0)) == 200 && Get(p1.avail, Qubit(1)) == 400 && Get(p1.avail, Clbit(0)) == 0 && Get(p1.avail, Clbit(1)) == 0 by {
      assert QubitWires([1]) == [Qubit(1)] && MaxOver(p0.avail, [Qubit(1)]) == 0;
    }
    Asap.RunFromSteps([a, p0.avail, p1.avail], ops[0..2], durs[0..2], [0, 0], DefaultLatency);
    Asap.RunFromSplit(a, ops, durs, DefaultLatency, 0, 2);
    ParAsapFrom2(p1.avail, ops, durs);
  }

  /** ASAP from instruction 2 on, given when each wire is free. */
  lemma ParAsapFrom2(a: Avail, ops: seq<Op>, durs: seq<nat>)
    requires |ops| == 4 && |durs| == 4
    requires ops[2] == Op(Measure, [0], [0], []) && durs[2] == 1000
    requires ops[3] == Op(Measure, [1], [1], []) && durs[3] == 1000
    requires Get(a, Qubit(0)) == 200 && Get(a, Qubit(1)) == 400 && Get(a, Clbit(0)) == 0 && Get(a, Clbit(1)) == 0
    ensures var r := Asap.RunFrom(a, ops[2..], durs[2..], DefaultLatency);
      r.starts == [200, 400] && Span(r.avail, 2, 2) == 1400
  {
    var p2 := Asap.Step(a, ops[2], durs[2], DefaultLatency);
    assert p2.start == 200 && Get(p2.avail, Qubit(0)) == 1200 && Get(p2.avail, Qubit(1)) == 400 && Get(p2.avail, Clbit(0)) == 1200 && Get(p2.avail, Clbit(1)) == 0 by {
      assert QubitWires([0]) == [Qubit(0)] && MaxOver(a, [Qubit(0)]) == 200 && ClbitWires([0]) == [Clbit(0)] && MaxOver(a, [Clbit(0)]) == 0;
    }
    var p3 := Asap.Step(p2.avail, ops[3], durs[3], DefaultLatency);
    assert p3.start == 400 && Get(p3.avail, Qubit(0)) == 1200 && Get(p3.avail, Qubit(1)) == 1400 && Get(p3.avail, Clbit(0)) == 1200 && Get(p3.avail, Clbit(1)) == 1400 by {
      assert QubitWires([1]) == [Qubit(1)] && MaxOver(p2.avail, [Qubit(1)]) == 400 && ClbitWires([1]) == [Clbit(1)] && MaxOver(p2.avail, [Clbit(1)]) == 0;
    }
    Asap.RunFromSteps([a, p2.avail, p3.avail], ops[2..], durs[2..], [200, 400], DefaultLatency);
    assert Span(p3.avail, 2, 2) == 1400 by {
      assert AllWires(2, 2) == [Qubit(0), Qubit(1), Clbit(0), Clbit(1)] && MaxOver(p3.avail, [Clbit(1)]) == 1400 && MaxOver(p3.avail, [Clbit(0), Clbit(1)]) == 1400 && MaxOver(p3.avail, [Qubit(1), Clbit(0), Clbit(1)]) == 1400 && MaxOver(p3.avail, [Qubit(0), Qubit(1), Clbit(0), Clbit(1)]) == 1400;
    }
  }

  /** The start times, gathered. */
  lemma ParAsapStarts(starts: seq<int>)
    requires starts == [0, 0] + ([200, 400])
    ensures starts == [0, 0, 200, 400]
  {
  }

  /** ASAP scheduling starts the instructions at [0, 0, 200, 400], and the circuit lasts 1400. */
  lemma ParAsap(c: Circuit, durs: seq<nat>)
    requires c.numQubits == 2 && c.numClbits == 2 && |c.ops| == 4 && |durs| == 4
    requires c.ops[0] == Op(Gate("x"), [0], [], []) && durs[0] == 200
    requires c.ops[1] == Op(Gate("x"), [1], [], []) && durs[1] == 400
    requires c.ops[2] == Op(Measure, [0], [0], []) && durs[2] == 1000
    requires c.ops[3] == Op(Measure, [1], [1], []) && durs[3] == 1000
    ensures WellFormed(c)
    ensures Asap.Schedule(c, durs, DefaultLatency) == Timing.Schedule([0, 0, 200, 400], durs, 1400)
  {
    ParWellFormed(c);
    WellFormedSchedulable(c);
    Asap.RunIsRunFrom(c.ops, durs, DefaultLatency);
    assert c.ops[0..] == c.ops && durs[0..] == durs;
    ParAsapFrom0(map[], c.ops, durs);
    ParAsapStarts(Asap.Run(c.ops, durs, DefaultLatency).starts);
  }

  /** ALAP over the instructions before 2, given when each wire is needed by the later ones. */
  lemma ParAlapTo2(a: Avail, ops: seq<Op>, durs: seq<nat>)
    requires |ops| == 4 && |durs| == 4
    requires ops[0] == Op(Gate("x"), [0], [], []) && durs[0] == 200
    requires ops[1] == Op(Gate("x"), [1], [], []) && durs[1] == 400
    requires Get(a, Qubit(0)) == 1000 && Get(a, Qubit(1)) == 1000 && Get(a, Clbit(0)) == 1000 && Get(a, Clbit(1)) == 1000
    ensures var r := Alap.RunFrom(a, ops[..2], durs[..2], DefaultLatency);
      r.starts == [1000, 1000] && Span(r.avail, 2, 2) == 1400
  {
    var p1 := Alap.Step(a, ops[1], durs[1], DefaultLatency);
    assert p1.start == 1000 && Get(p1.avail, Qubit(0)) == 1000 && Get(p1.avail, Qubit(1)) == 1400 && Get(p1.avail, Clbit(0)) == 1000 && Get(p1.avail, Clbit(1)) == 1000 by {
      assert QubitWires([1]) == [Qubit(1)] && MaxOver(a, [Qubit(1)]) == 1000;
    }
    var p0 := Alap.Step(p1.avail, ops[0], durs[0], DefaultLatency);
    assert p0.start == 1000 && Get(p0.avail, Qubit(0)) == 1200 && Get(p0.avail, Qubit(1)) == 1400 && Get(p0.avail, Clbit(0)) == 1000 && Get(p0.avail, Clbit(1)) == 1000 by {
      assert QubitWires([0]) == [Qubit(0)] && MaxOver(p1.avail, [Qubit(0)]) == 1000;
    }
    Alap.RunFromSteps([p0.avail, p1.avail, a], ops[0..2], durs[0..2], [1000, 1000], DefaultLatency);
    Alap.RunFromSplit(a, ops, durs, DefaultLatency, 0, 2);
    assert Span(p0.avail, 2, 2) == 1400 by {
      assert AllWires(2, 2) == [Qubit(0), Qubit(1), Clbit(0), Clbit(1)] && MaxOver(p0.avail, [Clbit(1)]) == 1000 && MaxOver(p0.avail, [Clbit(0), Clbit(1)]) == 1000 && MaxOver(p0.avail, [Qubit(1), Clbit(0), Clbit(1)]) == 1400 && MaxOver(p0.avail, [Qubit(0), Qubit(1), Clbit(0), Clbit(1)]) == 1400;
    }
  }

  /** ALAP over the instructions before 4, given when each wire is needed by the later ones. */
  lemma ParAlapTo4(a: Avail, ops: seq<Op>, durs: seq<nat>)
    requires |ops| == 4 && |durs| == 4
    requires ops[0] == Op(Gate("x"), [0], [], []) && durs[0] == 200
    requires ops[1] == Op(Gate("x"), [1], [], []) && durs[1] == 400
    requires ops[2] == Op(Measure, [0], [0], []) && durs[2] == 1000
    requires ops[3] == Op(Measure, [1], [1], []) && durs[3] == 1000
    requires Get(a, Qubit(0)) == 0 && Get(a, Qubit(1)) == 0 && Get(a, Clbit(0)) == 0 && Get(a, Clbit(1)) == 0
    ensures var r := Alap.RunFrom(a, ops[..4], durs[..4], DefaultLatency);
      r.starts == ([1000, 1000]) + [0, 0] && Span(r.avail, 2, 2) == 1400
  {
    var p3 := Alap.Step(a, ops[3], durs[3], DefaultLatency);
    assert p3.start == 0 && Get(p3.avail, Qubit(0)) == 0 && Get(p3.avail, Qubit(1)) == 1000 && Get(p3.avail, Clbit(0)) == 0 && Get(p3.avail, Clbit(1)) == 1000 by {
      assert QubitWires([1]) == [Qubit(1)] && MaxOver(a, [Qubit(1)]) == 0 && ClbitWires([1]) == [Clbit(1)] && MaxOver(a, [Clbit(1)]) == 0;
    }
    var p2 := Alap.Step(p3.avail, ops[2], durs[2], DefaultLatency);
    assert p2.start == 0 && Get(p2.avail, Qubit(0)) == 1000 && Get(p2.avail, Qubit(1)) == 1000 && Get(p2.avail, Clbit(0)) == 1000 && Get(p2.avail, Clbit(1)) == 1000 by {
      assert QubitWires([0]) == [Qubit(0)] && MaxOver(p3.avail, [Qubit(0)]) == 0 && ClbitWires([0]) == [Clbit(0)] && MaxOver(p3.avail, [Clbit(0)]) == 0;
    }
    Alap.RunFromSteps([p2.avail, p3.avail, a], ops[2..4], durs[2..4], [0, 0], DefaultLatency);
    Alap.RunFromSplit(a, ops, durs, DefaultLatency, 2, 4);
    ParAlapTo2(p2.avail, ops, durs);
  }

  /** Start times counted from the beginning. */
  lemma ParAlapFlip(ends: seq<int>, durs: seq<nat>)
    requires ends == ([1000, 1000]) + [0, 0] && |durs| == 4
    requires durs[0] == 200
    requires durs[1] == 400
    requires durs[2] == 1000
    requires durs[3] == 1000
    ensures Alap.Flip(ends, durs, 1400) == [200, 0, 400, 400]
  {
  }
  /** ALAP scheduling starts the instructions at [200, 0, 400, 400], and the circuit lasts 1400. */
  lemma ParAlap(c: Circuit, durs: seq<nat>)
    requires c.numQubits == 2 && c.numClbits == 2 && |c.ops| == 4 && |durs| == 4
    requires c.ops[0] == Op(Gate("x"), [0], [], []) && durs[0] == 200
    requires c.ops[1] == Op(Gate("x"), [1], [], []) && durs[1] == 400
    requires c.ops[2] == Op(Measure, [0], [0], []) && durs[2] == 1000
    requires c.ops[3] == Op(Measure, [1], [1], []) && durs[3] == 1000
    ensures WellFormed(c)
    ensures Alap.Schedule(c, durs, DefaultLatency) == Timing.Schedule([200, 0, 400, 400], durs, 1400)
  {
    ParWellFormed(c);
    WellFormedSchedulable(c);
    Alap.RunIsRunFrom(c.ops, durs, DefaultLatency);
    assert c.ops[..4] == c.ops && durs[..4] == durs;
    ParAlapTo4(map[], c.ops, durs);
    ParAlapFlip(Alap.Run(c.ops, durs, DefaultLatency).starts, durs);
  }

  /** Padding from instruction 0 on, given each qubit's cursor. */
  lemma ParAsapPadFrom0(cur: Avail, o: seq<Timed>, ops: seq<Op>, starts: seq<int>, durs: seq<nat>)
    requires |ops| == 4 && |starts| == 4 && |durs| == 4
    requires ops[0] == Op(Gate("x"), [0], [], []) && starts[0] == 0 && durs[0] == 200
    requires ops[1] == Op(Gate("x"), [1], [], []) && starts[1] == 0 && durs[1] == 400
    requires ops[2] == Op(Measure, [0], [0], []) && starts[2] == 200 && durs[2] == 1000
    requires ops[3] == Op(Measure, [1], [1], []) && starts[3] == 400 && durs[3] == 1000
    requires Get(cur, Qubit(0)) == 0 && Get(cur, Qubit(1)) == 0
    ensures var r := PadFrom(PadState(cur, o), ops[0..], starts[0..], durs[0..], None);
      r.out == (((o + [Timed(Op(Gate("x"), [0], [], []), 0, 200)]) + [Timed(Op(Gate("x"), [1], [], []), 0, 400)]) + [Timed(Op(Measure, [0], [0], []), 200, 1000)]) + [Timed(Op(Measure, [1], [1], []), 400, 1000)] && Get(r.cursor, Qubit(0)) == 1200 && Get(r.cursor, Qubit(1)) == 1400
  {
    PadFromAt(PadState(cur, o), ops, starts, durs, None, 0);
    var s0 := PlaceOp(PadState(cur, []), ops[0], starts[0], durs[0], None);
    assert s0.out == [Timed(Op(Gate("x"), [0], [], []), 0, 200)] && Get(s0.cursor, Qubit(0)) == 200 && Get(s0.cursor, Qubit(1)) == 0;
    PlaceOpOut(cur, o, ops[0], starts[0], durs[0], None);
    ParAsapPadFrom1(s0.cursor, o + [Timed(Op(Gate("x"), [0], [], []), 0, 200)], ops, starts, durs);
  }

  /** Padding from instruction 1 on, given each qubit's cursor. */
  lemma ParAsapPadFrom1(cur: Avail, o: seq<Timed>, ops: seq<Op>, starts: seq<int>, durs: seq<nat>)
    requires |ops| == 4 && |starts| == 4 && |durs| == 4
    requires ops[1] == Op(Gate("x"), [1], [], []) && starts[1] == 0 && durs[1] == 400
    requires ops[2] == Op(Measure, [0], [0], []) && starts[2] == 200 && durs[2] == 1000
    requires ops[3] == Op(Measure, [1], [1], []) && starts[3] == 400 && durs[3] == 1000
    requires Get(cur, Qubit(0)) == 200 && Get(cur, Qubit(1)) == 0
    ensures var r := PadFrom(PadState(cur, o), ops[1..], starts[1..], durs[1..], None);
      r.out == ((o + [Timed(Op(Gate("x"), [1], [], []), 0, 400)]) + [Timed(Op(Measure, [0], [0], []), 200, 1000)]) + [Timed(Op(Measure, [1], [1], []), 400, 1000)] && Get(r.cursor, Qubit(0)) == 1200 && Get(r.cursor, Qubit(1)) == 1400
  {
    PadFromAt(PadState(cur, o), ops, starts, durs, None, 1);
    var s1 := PlaceOp(PadState(cur, []), ops[1], starts[1], durs[1], None);
    assert s1.out == [Timed(Op(Gate("x"), [1], [], []), 0, 400)] && Get(s1.cursor, Qubit(0)) == 200 && Get(s1.cursor, Qubit(1)) == 400;
    PlaceOpOut(cur, o, ops[1], starts[1], durs[1], None);
    ParAsapPadFrom2(s1.cursor, o + [Timed(Op(Gate("x"), [1], [], []), 0, 400)], ops, starts, durs);
  }

  /** Padding from instruction 2 on, given each qubit's cursor. */
  lemma ParAsapPadFrom2(cur: Avail, o: seq<Timed>, ops: seq<Op>, starts: seq<int>, durs: seq<nat>)
    requires |ops| == 4 && |starts| == 4 && |durs| == 4
    requires ops[2] == Op(Measure, [0], [0], []) && starts[2] == 200 && durs[2] == 1000
    requires ops[3] == Op(Measure, [1], [1], []) && starts[3] == 400 && durs[3] == 1000
    requires Get(cur, Qubit(0)) == 200 && Get(cur, Qubit(1)) == 400
    ensures var r := PadFrom(PadState(cur, o), ops[2..], starts[2..], durs[2..], None);
      r.out == (o + [Timed(Op(Measure, [0], [0], []), 200, 1000)]) + [Timed(Op(Measure, [1], [1], []), 400, 1000)] && Get(r.cursor, Qubit(0)) == 1200 && Get(r.cursor, Qubit(1)) == 1400
  {
    PadFromAt(PadState(cur, o), ops, starts, durs, None, 2);
    var s2 := PlaceOp(PadState(cur, []), ops[2], starts[2], durs[2], None);
    assert s2.out == [Timed(Op(Measure, [0], [0], []), 200, 1000)] && Get(s2.cursor, Qubit(0)) == 1200 && Get(s2.cursor, Qubit(1)) == 400;
    PlaceOpOut(cur, o, ops[2], starts[2], durs[2], None);
    ParAsapPadFrom3(s2.cursor, o + [Timed(Op(Measure, [0], [0], []), 200, 1000)], ops, starts, durs);
  }

  /** Padding from instruction 3 on, given each qubit's cursor. */
  lemma ParAsapPadFrom3(cur: Avail, o: seq<Timed>, ops: seq<Op>, starts: seq<int>, durs: seq<nat>)
    requires |ops| == 4 && |starts| == 4 && |durs| == 4
    requires ops[3] == Op(Measure, [1], [1], []) && starts[3] == 400 && durs[3] == 1000
    requires Get(cur, Qubit(0)) == 1200 && Get(cur, Qubit(1)) == 400
    ensures var r := PadFrom(PadState(cur, o), ops[3..], starts[3..], durs[3..], None);
      r.out == o + [Timed(Op(Measure, [1], [1], []), 400, 1000)] && Get(r.cursor, Qubit(0)) == 1200 && Get(r.cursor, Qubit(1)) == 1400
  {
    PadFromAt(PadState(cur, o), ops, starts, durs, None, 3);
    var s3 := PlaceOp(PadState(cur, []), ops[3], starts[3], durs[3], None);
    assert s3.out == [Timed(Op(Measure, [1], [1], []), 400, 1000)] && Get(s3.cursor, Qubit(0)) == 1200 && Get(s3.cursor, Qubit(1)) == 1400;
    PlaceOpOut(cur, o, ops[3], starts[3], durs[3], None);
    assert ops[4..] == [] && starts[4..] == [] && durs[4..] == [];
  }

  /** The latest end of any instruction. */
  lemma ParAsapPadLatestEnd(starts: seq<int>, durs: seq<nat>)
    requires starts == [0, 0, 200, 400] && |durs| == 4
    requires durs[0] == 200
    requires durs[1] == 400
    requires durs[2] == 1000
    requires durs[3] == 1000
    ensures LatestEnd(starts, durs) == 1400
  {
  }

  /** The delays after the last instruction. */
  lemma ParAsapPadEndGaps(cur: Avail)
    requires Get(cur, Qubit(0)) == 1200 && Get(cur, Qubit(1)) == 1400
    ensures EndGaps(cur, 2, 1400, None) == [Idle(0, 1200, 1400)]
  {
    assert true && EndGaps(cur, 1, 1400, None) == [Idle(0, 1200, 1400)];
  }

  /** The padded instructions in order. */
  lemma ParAsapPaddedOut(body: seq<Timed>, tail: seq<Timed>)
    requires body == ((([] + [Timed(Op(Gate("x"), [0], [], []), 0, 200)]) + [Timed(Op(Gate("x"), [1], [], []), 0, 400)]) + [Timed(Op(Measure, [0], [0], []), 200, 1000)]) + [Timed(Op(Measure, [1], [1], []), 400, 1000)] && tail == [Idle(0, 1200, 1400)]
    ensures body + tail == [Timed(Op(Gate("x"), [0], [], []), 0, 200), Timed(Op(Gate("x"), [1], [], []), 0, 400), Timed(Op(Measure, [0], [0], []), 200, 1000), Timed(Op(Measure, [1], [1], []), 400, 1000), Idle(0, 1200, 1400)]
  {
  }

  /** Padding the ASAP schedule gives these instructions, in this order, and the duration 1400. */
  lemma ParAsapPadded(c: Circuit, durs: seq<nat>)
    requires c.numQubits == 2 && c.numClbits == 2 && |c.ops| == 4 && |durs| == 4
    requires c.ops[0] == Op(Gate("x"), [0], [], []) && durs[0] == 200
    requires c.ops[1] == Op(Gate("x"), [1], [], []) && durs[1] == 400
    requires c.ops[2] == Op(Measure, [0], [0], []) && durs[2] == 1000
    requires c.ops[3] == Op(Measure, [1], [1], []) && durs[3] == 1000
    ensures Pad(c, Some(StartTimes(Asap.Schedule(c, durs, DefaultLatency))), durs, None, true) == Success(Padded([Timed(Op(Gate("x"), [0], [], []), 0, 200), Timed(Op(Gate("x"), [1], [], []), 0, 400), Timed(Op(Measure, [0], [0], []), 200, 1000), Timed(Op(Measure, [1], [1], []), 400, 1000), Idle(0, 1200, 1400)], 1400))
  {
    ParAsap(c, durs);
    var s := Timing.Schedule([0, 0, 200, 400], durs, 1400);
    ParAsapPadFrom0(map[], [], c.ops, s.starts, durs);
    assert c.ops[0..] == c.ops && s.starts[0..] == s.starts && durs[0..] == durs;
    var st := PadFrom(PadState(map[], []), c.ops, s.starts, durs, None);
    ParAsapPadLatestEnd(s.starts, durs);
    PadOfSchedule(c, s, None, true, st, 1400);
    ParAsapPadEndGaps(st.cursor);
    ParAsapPaddedOut(st.out, [Idle(0, 1200, 1400)]);
  }

  /** Padding from instruction 0 on, given each qubit's cursor. */
  lemma ParAlapPadFrom0(cur: Avail, o: seq<Timed>, ops: seq<Op>, starts: seq<int>, durs: seq<nat>)
    requires |ops| == 4 && |starts| == 4 && |durs| == 4
    requires ops[0] == Op(Gate("x"), [0], [], []) && starts[0] == 200 && durs[0] == 200
    requires ops[1] == Op(Gate("x"), [1], [], []) && starts[1] == 0 && durs[1] == 400
    requires ops[2] == Op(Measure, [0], [0], []) && starts[2] == 400 && durs[2] == 1000
    requires ops[3] == Op(Measure, [1], [1], []) && starts[3] == 400 && durs[3] == 1000
    requires Get(cur, Qubit(0)) == 0 && Get(cur, Qubit(1)) == 0
    ensures var r := PadFrom(PadState(cur, o), ops[0..], starts[0..], durs[0..], None);
      r.out == (((o + [Idle(0, 0, 200), Timed(Op(Gate("x"), [0], [], []), 200, 200)]) + [Timed(Op(Gate("x"), [1], [], []), 0, 400)]) + [Timed(Op(Measure, [0], [0], []), 400, 1000)]) + [Timed(Op(Measure, [1], [1], []), 400, 1000)] && Get(r.cursor, Qubit(0)) == 1400 && Get(r.cursor, Qubit(1)) == 1400
  {
    PadFromAt(PadState(cur, o), ops, starts, durs, None, 0);
    var s0 := PlaceOp(PadState(cur, []), ops[0], starts[0], durs[0], None);
    assert s0.out == [Idle(0, 0, 200), Timed(Op(Gate("x"), [0], [], []), 200, 200)] && Get(s0.cursor, Qubit(0)) == 400 && Get(s0.cursor, Qubit(1)) == 0;
    PlaceOpOut(cur, o, ops[0], starts[0], durs[0], None);
    ParAlapPadFrom1(s0.cursor, o + [Idle(0, 0, 200), Timed(Op(Gate("x"), [0], [], []), 200, 200)], ops, starts, durs);
  }

  /** Padding from instruction 1 on, given each qubit's cursor. */
  lemma ParAlapPadFrom1(cur: Avail, o: seq<Timed>, ops: seq<Op>, starts: seq<int>, durs: seq<nat>)
    requires |ops| == 4 && |starts| == 4 && |durs| == 4
    requires ops[1] == Op(Gate("x"), [1], [], []) && starts[1] == 0 && durs[1] == 400
    requires ops[2] == Op(Measure, [0], [0], []) && starts[2] == 400 && durs[2] == 1000
    requires ops[3] == Op(Measure, [1], [1], []) && starts[3] == 400 && durs[3] == 1000
    requires Get(cur, Qubit(0)) == 400 && Get(cur, Qubit(1)) == 0
    ensures var r := PadFrom(PadState(cur, o), ops[1..], starts[1..], durs[1..], None);
      r.out == ((o + [Timed(Op(Gate("x"), [1], [], []), 0, 400)]) + [Timed(Op(Measure, [0], [0], []), 400, 1000)]) + [Timed(Op(Measure, [1], [1], []), 400, 1000)] && Get(r.cursor, Qubit(0)) == 1400 && Get(r.cursor, Qubit(1)) == 1400
  {
    PadFromAt(PadState(cur, o), ops, starts, durs, None, 1);
    var s1 := PlaceOp(PadState(cur, []), ops[1], starts[1], durs[1], None);
    assert s1.out == [Timed(Op(Gate("x"), [1], [], []), 0, 400)] && Get(s1.cursor, Qubit(0)) == 400 && Get(s1.cursor, Qubit(1)) == 400;
    PlaceOpOut(cur, o, ops[1], starts[1], durs[1], None);
    ParAlapPadFrom2(s1.cursor, o + [Timed(Op(Gate("x"), [1], [], []), 0, 400)], ops, starts, durs);
  }

  /** Padding from instruction 2 on, given each qubit's cursor. */
  lemma ParAlapPadFrom2(cur: Avail, o: seq<Timed>, ops: seq<Op>, starts: seq<int>, durs: seq<nat>)
    requires |ops| == 4 && |starts| == 4 && |durs| == 4
    requires ops[2] == Op(Measure, [0], [0], []) && starts[2] == 400 && durs[2] == 1000
    requires ops[3] == Op(Measure, [1], [1], []) && starts[3] == 400 && durs[3] == 1000
    requires Get(cur, Qubit(0)) == 400 && Get(cur, Qubit(1)) == 400
    ensures var r := PadFrom(PadState(cur, o), ops[2..], starts[2..], durs[2..], None);
      r.out == (o + [Timed(Op(Measure, [0], [0], []), 400, 1000)]) + [Timed(Op(Measure, [1], [1], []), 400, 1000)] && Get(r.cursor, Qubit(0)) == 1400 && Get(r.cursor, Qubit(1)) == 1400
  {
    PadFromAt(PadState(cur, o), ops, starts, durs, None, 2);
    var s2 := PlaceOp(PadState(cur, []), ops[2], starts[2], durs[2], None);
    assert s2.out == [Timed(Op(Measure, [0], [0], []), 400, 1000)] && Get(s2.cursor, Qubit(0)) == 1400 && Get(s2.cursor, Qubit(1)) == 400;
    PlaceOpOut(cur, o, ops[2], starts[2], durs[2], None);
    ParAlapPadFrom3(s2.cursor, o + [Timed(Op(Measure, [0], [0], []), 400, 1000)], ops, starts, durs);
  }

  /** Padding from instruction 3 on, given each qubit's cursor. */
  lemma ParAlapPadFrom3(cur: Avail, o: seq<Timed>, ops: seq<Op>, starts: seq<int>, durs: seq<nat>)
    requires |ops| == 4 && |starts| == 4 && |durs| == 4
    requires ops[3] == Op(Measure, [1], [1], []) && starts[3] == 400 && durs[3] == 1000
    requires Get(cur, Qubit(0)) == 1400 && Get(cur, Qubit(1)) == 400
    ensures var r := PadFrom(PadState(cur, o), ops[3..], starts[3..], durs[3..], None);
      r.out == o + [Timed(Op(Measure, [1], [1], []), 400, 1000)] && Get(r.cursor, Qubit(0)) == 1400 && Get(r.cursor, Qubit(1)) == 1400
  {
    PadFromAt(PadState(cur, o), ops, starts, durs, None, 3);
    var s3 := PlaceOp(PadState(cur, []), ops[3], starts[3], durs[3], None);
    assert s3.out == [Timed(Op(Measure, [1], [1], []), 400, 1000)] && Get(s3.cursor, Qubit(0)) == 1400 && Get(s3.cursor, Qubit(1)) == 1400;
    PlaceOpOut(cur, o, ops[3], starts[3], durs[3], None);
    assert ops[4..] == [] && starts[4..] == [] && durs[4..] == [];
  }

  /** The latest end of any instruction. */
  lemma ParAlapPadLatestEnd(starts: seq<int>, durs: seq<nat>)
    requires starts == [200, 0, 400, 400] && |durs| == 4
    requires durs[0] == 200
    requires durs[1] == 400
    requires durs[2] == 1000
    requires durs[3] == 1000
    ensures LatestEnd(starts, durs) == 1400
  {
  }

  /** The delays after the last instruction. */
  lemma ParAlapPadEndGaps(cur: Avail)
    requires Get(cur, Qubit(0)) == 1400 && Get(cur, Qubit(1)) == 1400
    ensures EndGaps(cur, 2, 1400, None) == []
  {
    assert true && EndGaps(cur, 1, 1400, None) == [];
  }

  /** The padded instructions in order. */
  lemma ParAlapPaddedOut(body: seq<Timed>, tail: seq<Timed>)
    requires body == ((([] + [Idle(0, 0, 200), Timed(Op(Gate("x"), [0], [], []), 200, 200)]) + [Timed(Op(Gate("x"), [1], [], []), 0, 400)]) + [Timed(Op(Measure, [0], [0], []), 400, 1000)]) + [Timed(Op(Measure, [1], [1], []), 400, 1000)] && tail == []
    ensures body + tail == [Idle(0, 0, 200), Timed(Op(Gate("x"), [0], [], []), 200, 200), Timed(Op(Gate("x"), [1], [], []), 0, 400), Timed(Op(Measure, [0], [0], []), 400, 1000), Timed(Op(Measure, [1], [1], []), 400, 1000)]
  {
  }

  /** Padding the ALAP schedule gives these instructions, in this order, and the duration 1400. */
  lemma ParAlapPadded(c: Circuit, durs: seq<nat>)
    requires c.numQubits == 2 && c.numClbits == 2 && |c.ops| == 4 && |durs| == 4
    requires c.ops[0] == Op(Gate("x"), [0], [], []) && durs[0] == 200
    requires c.ops[1] == Op(Gate("x"), [1], [], []) && durs[1] == 400
    requires c.ops[2] == Op(Measure, [0], [0], []) && durs[2] == 1000
    requires c.ops[3] == Op(Measure, [1], [1], []) && durs[3] == 1000
    ensures Pad(c, Some(StartTimes(Alap.Schedule(c, durs, DefaultLatency))), durs, None, true) == Success(Padded([Idle(0, 0, 200), Timed(Op(Gate("x"), [0], [], []), 200, 200), Timed(Op(Gate("x"), [1], [], []), 0, 400), Timed(Op(Measure, [0], [0], []), 400, 1000), Timed(Op(Measure, [1], [1], []), 400, 1000)], 1400))
  {
    ParAlap(c, durs);
    var s := Timing.Schedule([200, 0, 400, 400], durs, 1400);
    ParAlapPadFrom0(map[], [], c.ops, s.starts, durs);
    assert c.ops[0..] == c.ops && s.starts[0..] == s.starts && durs[0..] == durs;
    var st := PadFrom(PadState(map[], []), c.ops, s.starts, durs, None);
    ParAlapPadLatestEnd(s.starts, durs);
    PadOfSchedule(c, s, None, true, st, 1400);
    ParAlapPadEndGaps(st.cursor);
    ParAlapPaddedOut(st.out, []);
  }

  /** The duration of each instruction, as the scheduling passes look it up. */
  lemma ParDurations(c: Circuit)
    requires |c.ops| == 4
    requires c.ops[0] == Op(Gate("x"), [0], [], [])
    requires c.ops[1] == Op(Gate("x"), [1], [], [])
    requires c.ops[2] == Op(Measure, [0], [0], [])
    requires c.ops[3] == Op(Measure, [1], [1], [])
    ensures AllResolved(map[], FromEntries([Entry("x", Some([0]), 200), Entry("x", Some([1]), 400), Entry("measure", None, 1000)]), c.ops) && DurationsOf(map[], FromEntries([Entry("x", Some([0]), 200), Entry("x", Some([1]), 400), Entry("measure", None, 1000)]), c.ops) == [200, 400, 1000, 1000]
  {
    var t := FromEntries([Entry("x", Some([0]), 200), Entry("x", Some([1]), 400), Entry("measure", None, 1000)]);
    assert NodeDuration(map[], t, c.ops[0]) == Some(200);
    assert NodeDuration(map[], t, c.ops[1]) == Some(400);
    assert NodeDuration(map[], t, c.ops[2]) == Some(1000);
    assert NodeDuration(map[], t, c.ops[3]) == Some(1000);
    DurationsAre(map[], t, c.ops, [200, 400, 1000, 1000]);
  }
}
