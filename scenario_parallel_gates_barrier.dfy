/** The same gates separated from the measures by a barrier over both qubits:
    both measures start at the barrier in either mode. */
module ParallelGatesBarrier {
  import opened Circuits
  import opened Timing
  import opened Durations
  import opened Constraints
  import opened Padding
  import Asap
  import Alap

  /** The circuit is well formed. */
  lemma ParBWellFormed(c: Circuit)
    requires c.numQubits == 2 && c.numClbits == 2 && |c.ops| == 5
    requires c.ops[0] == Op(Gate("x"), [0], [], [])
    requires c.ops[1] == Op(Gate("x"), [1], [], [])
    requires c.ops[2] == Op(Barrier, [0, 1], [], [])
    requires c.ops[3] == Op(Measure, [0], [0], [])
    requires c.ops[4] == Op(Measure, [1], [1], [])
    ensures WellFormed(c)
  {
    assert WellFormedOp(c.ops[0], 2, 2);
    assert WellFormedOp(c.ops[1], 2, 2);
    assert WellFormedOp(c.ops[2], 2, 2);
    assert WellFormedOp(c.ops[3], 2, 2);
    assert WellFormedOp(c.ops[4], 2, 2);
  }

  /** ASAP from instruction 0 on, given when each wire is free. */
  lemma ParBAsapFrom0(a: Avail, ops: seq<Op>, durs: seq<nat>)
    requires |ops| == 5 && |durs| == 5
    requires ops[0] == Op(Gate("x"), [0], [], []) && durs[0] == 200
    requires ops[1] == Op(Gate("x"), [1], [], []) && durs[1] == 400
    requires ops[2] == Op(Barrier, [0, 1], [], []) && durs[2] == 0
    requires ops[3] == Op(Measure, [0], [0], []) && durs[3] == 1000
    requires ops[4] == Op(Measure, [1], [1], []) && durs[4] == 1000
    requires Get(a, Qubit(0)) == 0 && Get(a, Qubit(1)) == 0 && Get(a, Clbit(0)) == 0 && Get(a, Clbit(1)) == 0
    ensures var r := Asap.RunFrom(a, ops[0..], durs[0..], DefaultLatency);
      r.starts == [0, 0] + ([400, 400] + ([400])) && Span(r.avail, 2, 2) == 1400
  {
    var p0 := Asap.Step(a, ops[0], durs[0], DefaultLatency);
    assert p0.start == 0 && Get(p0.avail, Qubit(0)) == 200 && Get(p0.avail, Qubit(1)) == 0 && Get(p0.avail, Clbit(0)) == 0 && Get(p0.avail, Clbit(1)) == 0 by {
      assert QubitWires([0]) == [Qubit(0)] && MaxOver(a, [Qubit(0)]) == 0;
    }
    var p1 := Asap.Step(p0.avail, ops[1], durs[1], DefaultLatency);
    assert p1.start == 0 && Get(p1.avail, Qubit(0)) == 200 && Get(p1.avail, Qubit(1)) == 400 && Get(p1.avail, Clbit(0)) == 0 && Get(p1.avail, Clbit(1)) == 0 by {
      assert QubitWires([1]) == [Qubit(1)] && MaxOver(p0.avail, [Qubit(1)]) == 0;
    }
    Asap.RunFromSteps([a, p0.avail, p1.avail], ops[0..2], durs[0..2], [0, 0], DefaultLatency);
    Asap.RunFromSplit(a, ops, durs, DefaultLatency, 0, 2);
    ParBAsapFrom2(p1.avail, ops, durs);
  }

  /** ASAP from instruction 2 on, given when each wire is free. */
  lemma ParBAsapFrom2(a: Avail, ops: seq<Op>, durs: seq<nat>)
    requires |ops| == 5 && |durs| == 5
    requires ops[2] == Op(Barrier, [0, 1], [], []) && durs[2] == 0
    requires ops[3] == Op(Measure, [0], [0], []) && durs[3] == 1000
    requires ops[4] == Op(Measure, [1], [1], []) && durs[4] == 1000
    requires Get(a, Qubit(0)) == 200 && Get(a, Qubit(1)) == 400 && Get(a, Clbit(0)) == 0 && Get(a, Clbit(1)) == 0
    ensures var r := Asap.RunFrom(a, ops[2..], durs[2..], DefaultLatency);
      r.starts == [400, 400] + ([400]) && Span(r.avail, 2, 2) == 1400
  {
    var p2 := Asap.Step(a, ops[2], durs[2], DefaultLatency);
    assert p2.start == 400 && Get(p2.avail, Qubit(0)) == 400 && Get(p2.avail, Qubit(1)) == 400 && Get(p2.avail, Clbit(0)) == 0 && Get(p2.avail, Clbit(1)) == 0 by {
      assert QubitWires([0, 1]) == [Qubit(0), Qubit(1)] && MaxOver(a, [Qubit(1)]) == 400 && MaxOver(a, [Qubit(0), Qubit(1)]) == 400;
    }
    var p3 := Asap.Step(p2.avail, ops[3], durs[3], DefaultLatency);
    assert p3.start == 400 && Get(p3.avail, Qubit(0)) == 1400 && Get(p3.avail, Qubit(1)) == 400 && Get(p3.avail, Clbit(0)) == 1400 && Get(p3.avail, Clbit(1)) == 0 by {
      assert QubitWires([0]) == [Qubit(0)] && MaxOver(p2.avail, [Qubit(0)]) == 400 && ClbitWires([0]) == [Clbit(0)] && MaxOver(p2.avail, [Clbit(0)]) == 0;
    }
    Asap.RunFromSteps([a, p2.avail, p3.avail], ops[2..4], durs[2..4], [400, 400], DefaultLatency);
    Asap.RunFromSplit(a, ops, durs, DefaultLatency, 2, 4);
    ParBAsapFrom4(p3.avail, ops, durs);
  }

  /** ASAP from instruction 4 on, given when each wire is free. */
  lemma ParBAsapFrom4(a: Avail, ops: seq<Op>, durs: seq<nat>)
    requires |ops| == 5 && |durs| == 5
    requires ops[4] == Op(Measure, [1], [1], []) && durs[4] == 1000
    requires Get(a, Qubit(0)) == 1400 && Get(a, Qubit(1)) == 400 && Get(a, Clbit(0)) == 1400 && Get(a, Clbit(1)) == 0
    ensures var r := Asap.RunFrom(a, ops[4..], durs[4..], DefaultLatency);
      r.starts == [400] && Span(r.avail, 2, 2) == 1400
  {
    var p4 := Asap.Step(a, ops[4], durs[4], DefaultLatency);
    assert p4.start == 400 && Get(p4.avail, Qubit(0)) == 1400 && Get(p4.avail, Qubit(1)) == 1400 && Get(p4.avail, Clbit(0)) == 1400 && Get(p4.avail, Clbit(1)) == 1400 by {
      assert QubitWires([1]) == [Qubit(1)] && MaxOver(a, [Qubit(1)]) == 400 && ClbitWires([1]) == [Clbit(1)] && MaxOver(a, [Clbit(1)]) == 0;
    }
    Asap.RunFromSteps([a, p4.avail], ops[4..], durs[4..], [400], DefaultLatency);
    assert Span(p4.avail, 2, 2) == 1400 by {
      assert AllWires(2, 2) == [Qubit(0), Qubit(1), Clbit(0), Clbit(1)] && MaxOver(p4.avail, [Clbit(1)]) == 1400 && MaxOver(p4.avail, [Clbit(0), Clbit(1)]) == 1400 && MaxOver(p4.avail, [Qubit(1), Clbit(0), Clbit(1)]) == 1400 && MaxOver(p4.avail, [Qubit(0), Qubit(1), Clbit(0), Clbit(1)]) == 1400;
    }
  }

  /** The start times, gathered. */
  lemma ParBAsapStarts(starts: seq<int>)
    requires starts == [0, 0] + ([400, 400] + ([400]))
    ensures starts == [0, 0, 400, 400, 400]
  {
  }

  /** ASAP scheduling starts the instructions at [0, 0, 400, 400, 400], and the circuit lasts 1400. */
  lemma ParBAsap(c: Circuit, durs: seq<nat>)
    requires c.numQubits == 2 && c.numClbits == 2 && |c.ops| == 5 && |durs| == 5
    requires c.ops[0] == Op(Gate("x"), [0], [], []) && durs[0] == 200
    requires c.ops[1] == Op(Gate("x"), [1], [], []) && durs[1] == 400
    requires c.ops[2] == Op(Barrier, [0, 1], [], []) && durs[2] == 0
    requires c.ops[3] == Op(Measure, [0], [0], []) && durs[3] == 1000
    requires c.ops[4] == Op(Measure, [1], [1], []) && durs[4] == 1000
    ensures WellFormed(c)
    ensures Asap.Schedule(c, durs, DefaultLatency) == Timing.Schedule([0, 0, 400, 400, 400], durs, 1400)
  {
    ParBWellFormed(c);
    WellFormedSchedulable(c);
    Asap.RunIsRunFrom(c.ops, durs, DefaultLatency);
    assert c.ops[0..] == c.ops && durs[0..] == durs;
    ParBAsapFrom0(map[], c.ops, durs);
    ParBAsapStarts(Asap.Run(c.ops, durs, DefaultLatency).starts);
  }

  /** ALAP over the instructions before 1, given when each wire is needed by the later ones. */
  lemma ParBAlapTo1(a: Avail, ops: seq<Op>, durs: seq<nat>)
    requires |ops| == 5 && |durs| == 5
    requires ops[0] == Op(Gate("x"), [0], [], []) && durs[0] == 200
    requires Get(a, Qubit(0)) == 1000 && Get(a, Qubit(1)) == 1400 && Get(a, Clbit(0)) == 1000 && Get(a, Clbit(1)) == 1000
    ensures var r := Alap.RunFrom(a, ops[..1], durs[..1], DefaultLatency);
      r.starts == [1000] && Span(r.avail, 2, 2) == 1400
  {
    var p0 := Alap.Step(a, ops[0], durs[0], DefaultLatency);
    assert p0.start == 1000 && Get(p0.avail, Qubit(0)) == 1200 && Get(p0.avail, Qubit(1)) == 1400 && Get(p0.avail, Clbit(0)) == 1000 && Get(p0.avail, Clbit(1)) == 1000 by {
      assert QubitWires([0]) == [Qubit(0)] && MaxOver(a, [Qubit(0)]) == 1000;
    }
    Alap.RunFromSteps([p0.avail, a], ops[0..1], durs[0..1], [1000], DefaultLatency);
    Alap.RunFromSplit(a, ops, durs, DefaultLatency, 0, 1);
    assert Span(p0.avail, 2, 2) == 1400 by {
      assert AllWires(2, 2) == [Qubit(0), Qubit(1), Clbit(0), Clbit(1)] && MaxOver(p0.avail, [Clbit(1)]) == 1000 && MaxOver(p0.avail, [Clbit(0), Clbit(1)]) == 1000 && MaxOver(p0.avail, [Qubit(1), Clbit(0), Clbit(1)]) == 1400 && MaxOver(p0.avail, [Qubit(0), Qubit(1), Clbit(0), Clbit(1)]) == 1400;
    }
  }

  /** ALAP over the instructions before 3, given when each wire is needed by the later ones. */
  lemma ParBAlapTo3(a: Avail, ops: seq<Op>, durs: seq<nat>)
    requires |ops| == 5 && |durs| == 5
    requires ops[0] == Op(Gate("x"), [0], [], []) && durs[0] == 200
    requires ops[1] == Op(Gate("x"), [1], [], []) && durs[1] == 400
    requires ops[2] == Op(Barrier, [0, 1], [], []) && durs[2] == 0
    requires Get(a, Qubit(0)) == 1000 && Get(a, Qubit(1)) == 1000 && Get(a, Clbit(0)) == 1000 && Get(a, Clbit(1)) == 1000
    ensures var r := Alap.RunFrom(a, ops[..3], durs[..3], DefaultLatency);
      r.starts == ([1000]) + [1000, 1000] && Span(r.avail, 2, 2) == 1400
  {
    var p2 := Alap.Step(a, ops[2], durs[2], DefaultLatency);
    assert p2.start == 1000 && Get(p2.avail, Qubit(0)) == 1000 && Get(p2.avail, Qubit(1)) == 1000 && Get(p2.avail, Clbit(0)) == 1000 && Get(p2.avail, Clbit(1)) == 1000 by {
      assert QubitWires([0, 1]) == [Qubit(0), Qubit(1)] && MaxOver(a, [Qubit(1)]) == 1000 && MaxOver(a, [Qubit(0), Qubit(1)]) == 1000;
    }
    var p1 := Alap.Step(p2.avail, ops[1], durs[1], DefaultLatency);
    assert p1.start == 1000 && Get(p1.avail, Qubit(0)) == 1000 && Get(p1.avail, Qubit(1)) == 1400 && Get(p1.avail, Clbit(0)) == 1000 && Get(p1.avail, Clbit(1)) == 1000 by {
      assert QubitWires([1]) == [Qubit(1)] && MaxOver(p2.avail, [Qubit(1)]) == 1000;
    }
    Alap.RunFromSteps([p1.avail, p2.avail, a], ops[1..3], durs[1..3], [1000, 1000], DefaultLatency);
    Alap.RunFromSplit(a, ops, durs, DefaultLatency, 1, 3);
    ParBAlapTo1(p1.avail, ops, durs);
  }

  /** ALAP over the instructions before 5, given when each wire is needed by the later ones. */
  lemma ParBAlapTo5(a: Avail, ops: seq<Op>, durs: seq<nat>)
    requires |ops| == 5 && |durs| == 5
    requires ops[0] == Op(Gate("x"), [0], [], []) && durs[0] == 200
    requires ops[1] == Op(Gate("x"), [1], [], []) && durs[1] == 400
    requires ops[2] == Op(Barrier, [0, 1], [], []) && durs[2] == 0
    requires ops[3] == Op(Measure, [0], [0], []) && durs[3] == 1000
    requires ops[4] == Op(Measure, [1], [1], []) && durs[4] == 1000
    requires Get(a, Qubit(0)) == 0 && Get(a, Qubit(1)) == 0 && Get(a, Clbit(0)) == 0 && Get(a, Clbit(1)) == 0
    ensures var r := Alap.RunFrom(a, ops[..5], durs[..5], DefaultLatency);
      r.starts == (([1000]) + [1000, 1000]) + [0, 0] && Span(r.avail, 2, 2) == 1400
  {
    var p4 := Alap.Step(a, ops[4], durs[4], DefaultLatency);
    assert p4.start == 0 && Get(p4.avail, Qubit(0)) == 0 && Get(p4.avail, Qubit(1)) == 1000 && Get(p4.avail, Clbit(0)) == 0 && Get(p4.avail, Clbit(1)) == 1000 by {
      assert QubitWires([1]) == [Qubit(1)] && MaxOver(a, [Qubit(1)]) == 0 && ClbitWires([1]) == [Clbit(1)] && MaxOver(a, [Clbit(1)]) == 0;
    }
    var p3 := Alap.Step(p4.avail, ops[3], durs[3], DefaultLatency);
    assert p3.start == 0 && Get(p3.avail, Qubit(0)) == 1000 && Get(p3.avail, Qubit(1)) == 1000 && Get(p3.avail, Clbit(0)) == 1000 && Get(p3.avail, Clbit(1)) == 1000 by {
      assert QubitWires([0]) == [Qubit(0)] && MaxOver(p4.avail, [Qubit(0)]) == 0 && ClbitWires([0]) == [Clbit(0)] && MaxOver(p4.avail, [Clbit(0)]) == 0;
    }
    Alap.RunFromSteps([p3.avail, p4.avail, a], ops[3..5], durs[3..5], [0, 0], DefaultLatency);
    Alap.RunFromSplit(a, ops, durs, DefaultLatency, 3, 5);
    ParBAlapTo3(p3.avail, ops, durs);
  }

  /** Start times counted from the beginning. */
  lemma ParBAlapFlip(ends: seq<int>, durs: seq<nat>)
    requires ends == (([1000]) + [1000, 1000]) + [0, 0] && |durs| == 5
    requires durs[0] == 200
    requires durs[1] == 400
    requires durs[2] == 0
    requires durs[3] == 1000
    requires durs[4] == 1000
    ensures Alap.Flip(ends, durs, 1400) == [200, 0, 400, 400, 400]
  {
  }
  /** ALAP scheduling starts the instructions at [200, 0, 400, 400, 400], and the circuit lasts 1400. */
  lemma ParBAlap(c: Circuit, durs: seq<nat>)
    requires c.numQubits == 2 && c.numClbits == 2 && |c.ops| == 5 && |durs| == 5
    requires c.ops[0] == Op(Gate("x"), [0], [], []) && durs[0] == 200
    requires c.ops[1] == Op(Gate("x"), [1], [], []) && durs[1] == 400
    requires c.ops[2] == Op(Barrier, [0, 1], [], []) && durs[2] == 0
    requires c.ops[3] == Op(Measure, [0], [0], []) && durs[3] == 1000
    requires c.ops[4] == Op(Measure, [1], [1], []) && durs[4] == 1000
    ensures WellFormed(c)
    ensures Alap.Schedule(c, durs, DefaultLatency) == Timing.Schedule([200, 0, 400, 400, 400], durs, 1400)
  {
    ParBWellFormed(c);
    WellFormedSchedulable(c);
    Alap.RunIsRunFrom(c.ops, durs, DefaultLatency);
    assert c.ops[..5] == c.ops && durs[..5] == durs;
    ParBAlapTo5(map[], c.ops, durs);
    ParBAlapFlip(Alap.Run(c.ops, durs, DefaultLatency).starts, durs);
  }

  /** Padding from instruction 0 on, given each qubit's cursor. */
  lemma ParBAsapPadFrom0(cur: Avail, o: seq<Timed>, ops: seq<Op>, starts: seq<int>, durs: seq<nat>)
    requires |ops| == 5 && |starts| == 5 && |durs| == 5
    requires ops[0] == Op(Gate("x"), [0], [], []) && starts[0] == 0 && durs[0] == 200
    requires ops[1] == Op(Gate("x"), [1], [], []) && starts[1] == 0 && durs[1] == 400
    requires ops[2] == Op(Barrier, [0, 1], [], []) && starts[2] == 400 && durs[2] == 0
    requires ops[3] == Op(Measure, [0], [0], []) && starts[3] == 400 && durs[3] == 1000
    requires ops[4] == Op(Measure, [1], [1], []) && starts[4] == 400 && durs[4] == 1000
    requires Get(cur, Qubit(0)) == 0 && Get(cur, Qubit(1)) == 0
    ensures var r := PadFrom(PadState(cur, o), ops[0..], starts[0..], durs[0..], None);
      r.out == ((((o + [Timed(Op(Gate("x"), [0], [], []), 0, 200)]) + [Timed(Op(Gate("x"), [1], [], []), 0, 400)]) + [Idle(0, 200, 400), Timed(Op(Barrier, [0, 1], [], []), 400, 0)]) + [Timed(Op(Measure, [0], [0], []), 400, 1000)]) + [Timed(Op(Measure, [1], [1], []), 400, 1000)] && Get(r.cursor, Qubit(0)) == 1400 && Get(r.cursor, Qubit(1)) == 1400
  {
    PadFromAt(PadState(cur, o), ops, starts, durs, None, 0);
    var s0 := PlaceOp(PadState(cur, []), ops[0], starts[0], durs[0], None);
    assert s0.out == [Timed(Op(Gate("x"), [0], [], []), 0, 200)] && Get(s0.cursor, Qubit(0)) == 200 && Get(s0.cursor, Qubit(1)) == 0;
    PlaceOpOut(cur, o, ops[0], starts[0], durs[0], None);
    ParBAsapPadFrom1(s0.cursor, o + [Timed(Op(Gate("x"), [0], [], []), 0, 200)], ops, starts, durs);
  }

  /** Padding from instruction 1 on, given each qubit's cursor. */
  lemma ParBAsapPadFrom1(cur: Avail, o: seq<Timed>, ops: seq<Op>, starts: seq<int>, durs: seq<nat>)
    requires |ops| == 5 && |starts| == 5 && |durs| == 5
    requires ops[1] == Op(Gate("x"), [1], [], []) && starts[1] == 0 && durs[1] == 400
    requires ops[2] == Op(Barrier, [0, 1], [], []) && starts[2] == 400 && durs[2] == 0
    requires ops[3] == Op(Measure, [0], [0], []) && starts[3] == 400 && durs[3] == 1000
    requires ops[4] == Op(Measure, [1], [1], []) && starts[4] == 400 && durs[4] == 1000
    requires Get(cur, Qubit(0)) == 200 && Get(cur, Qubit(1)) == 0
    ensures var r := PadFrom(PadState(cur, o), ops[1..], starts[1..], durs[1..], None);
      r.out == (((o + [Timed(Op(Gate("x"), [1], [], []), 0, 400)]) + [Idle(0, 200, 400), Timed(Op(Barrier, [0, 1], [], []), 400, 0)]) + [Timed(Op(Measure, [0], [0], []), 400, 1000)]) + [Timed(Op(Measure, [1], [1], []), 400, 1000)] && Get(r.cursor, Qubit(0)) == 1400 && Get(r.cursor, Qubit(1)) == 1400
  {
    PadFromAt(PadState(cur, o), ops, starts, durs, None, 1);
    var s1 := PlaceOp(PadState(cur, []), ops[1], starts[1], durs[1], None);
    assert s1.out == [Timed(Op(Gate("x"), [1], [], []), 0, 400)] && Get(s1.cursor, Qubit(0)) == 200 && Get(s1.cursor, Qubit(1)) == 400;
    PlaceOpOut(cur, o, ops[1], starts[1], durs[1], None);
    ParBAsapPadFrom2(s1.cursor, o + [Timed(Op(Gate("x"), [1], [], []), 0, 400)], ops, starts, durs);
  }

  /** Padding from instruction 2 on, given each qubit's cursor. */
  lemma ParBAsapPadFrom2(cur: Avail, o: seq<Timed>, ops: seq<Op>, starts: seq<int>, durs: seq<nat>)
    requires |ops| == 5 && |starts| == 5 && |durs| == 5
    requires ops[2] == Op(Barrier, [0, 1], [], []) && starts[2] == 400 && durs[2] == 0
    requires ops[3] == Op(Measure, [0], [0], []) && starts[3] == 400 && durs[3] == 1000
    requires ops[4] == Op(Measure, [1], [1], []) && starts[4] == 400 && durs[4] == 1000
    requires Get(cur, Qubit(0)) == 200 && Get(cur, Qubit(1)) == 400
    ensures var r := PadFrom(PadState(cur, o), ops[2..], starts[2..], durs[2..], None);
      r.out == ((o + [Idle(0, 200, 400), Timed(Op(Barrier, [0, 1], [], []), 400, 0)]) + [Timed(Op(Measure, [0], [0], []), 400, 1000)]) + [Timed(Op(Measure, [1], [1], []), 400, 1000)] && Get(r.cursor, Qubit(0)) == 1400 && Get(r.cursor, Qubit(1)) == 1400
  {
    PadFromAt(PadState(cur, o), ops, starts, durs, None, 2);
    var s2 := PlaceOp(PadState(cur, []), ops[2], starts[2], durs[2], None);
    assert s2.out == [Idle(0, 200, 400), Timed(Op(Barrier, [0, 1], [], []), 400, 0)] && Get(s2.cursor, Qubit(0)) == 400 && Get(s2.cursor, Qubit(1)) == 400;
    PlaceOpOut(cur, o, ops[2], starts[2], durs[2], None);
    ParBAsapPadFrom3(s2.cursor, o + [Idle(0, 200, 400), Timed(Op(Barrier, [0, 1], [], []), 400, 0)], ops, starts, durs);
  }

  /** Padding from instruction 3 on, given each qubit's cursor. */
  lemma ParBAsapPadFrom3(cur: Avail, o: seq<Timed>, ops: seq<Op>, starts: seq<int>, durs: seq<nat>)
    requires |ops| == 5 && |starts| == 5 && |durs| == 5
    requires ops[3] == Op(Measure, [0], [0], []) && starts[3] == 400 && durs[3] == 1000
    requires ops[4] == Op(Measure, [1], [1], []) && starts[4] == 400 && durs[4] == 1000
    requires Get(cur, Qubit(0)) == 400 && Get(cur, Qubit(1)) == 400
    ensures var r := PadFrom(PadState(cur, o), ops[3..], starts[3..], durs[3..], None);
      r.out == (o + [Timed(Op(Measure, [0], [0], []), 400, 1000)]) + [Timed(Op(Measure, [1], [1], []), 400, 1000)] && Get(r.cursor, Qubit(0)) == 1400 && Get(r.cursor, Qubit(1)) == 1400
  {
    PadFromAt(PadState(cur, o), ops, starts, durs, None, 3);
    var s3 := PlaceOp(PadState(cur, []), ops[3], starts[3], durs[3], None);
    assert s3.out == [Timed(Op(Measure, [0], [0], []), 400, 1000)] && Get(s3.cursor, Qubit(0)) == 1400 && Get(s3.cursor, Qubit(1)) == 400;
    PlaceOpOut(cur, o, ops[3], starts[3], durs[3], None);
    ParBAsapPadFrom4(s3.cursor, o + [Timed(Op(Measure, [0], [0], []), 400, 1000)], ops, starts, durs);
  }

  /** Padding from instruction 4 on, given each qubit's cursor. */
  lemma ParBAsapPadFrom4(cur: Avail, o: seq<Timed>, ops: seq<Op>, starts: seq<int>, durs: seq<nat>)
    requires |ops| == 5 && |starts| == 5 && |durs| == 5
    requires ops[4] == Op(Measure, [1], [1], []) && starts[4] == 400 && durs[4] == 1000
    requires Get(cur, Qubit(0)) == 1400 && Get(cur, Qubit(1)) == 400
    ensures var r := PadFrom(PadState(cur, o), ops[4..], starts[4..], durs[4..], None);
      r.out == o + [Timed(Op(Measure, [1], [1], []), 400, 1000)] && Get(r.cursor, Qubit(0)) == 1400 && Get(r.cursor, Qubit(1)) == 1400
  {
    PadFromAt(PadState(cur, o), ops, starts, durs, None, 4);
    var s4 := PlaceOp(PadState(cur, []), ops[4], starts[4], durs[4], None);
    assert s4.out == [Timed(Op(Measure, [1], [1], []), 400, 1000)] && Get(s4.cursor, Qubit(0)) == 1400 && Get(s4.cursor, Qubit(1)) == 1400;
    PlaceOpOut(cur, o, ops[4], starts[4], durs[4], None);
    assert ops[5..] == [] && starts[5..] == [] && durs[5..] == [];
  }

  /** The latest end of any instruction. */
  lemma ParBAsapPadLatestEnd(starts: seq<int>, durs: seq<nat>)
    requires starts == [0, 0, 400, 400, 400] && |durs| == 5
    requires durs[0] == 200
    requires durs[1] == 400
    requires durs[2] == 0
    requires durs[3] == 1000
    requires durs[4] == 1000
    ensures LatestEnd(starts, durs) == 1400
  {
  }

  /** The delays after the last instruction. */
  lemma ParBAsapPadEndGaps(cur: Avail)
    requires Get(cur, Qubit(0)) == 1400 && Get(cur, Qubit(1)) == 1400
    ensures EndGaps(cur, 2, 1400, None) == []
  {
    assert true && EndGaps(cur, 1, 1400, None) == [];
  }

  /** The padded instructions in order. */
  lemma ParBAsapPaddedOut(body: seq<Timed>, tail: seq<Timed>)
    requires body == (((([] + [Timed(Op(Gate("x"), [0], [], []), 0, 200)]) + [Timed(Op(Gate("x"), [1], [], []), 0, 400)]) + [Idle(0, 200, 400), Timed(Op(Barrier, [0, 1], [], []), 400, 0)]) + [Timed(Op(Measure, [0], [0], []), 400, 1000)]) + [Timed(Op(Measure, [1], [1], []), 400, 1000)] && tail == []
    ensures body + tail == [Timed(Op(Gate("x"), [0], [], []), 0, 200), Timed(Op(Gate("x"), [1], [], []), 0, 400), Idle(0, 200, 400), Timed(Op(Barrier, [0, 1], [], []), 400, 0), Timed(Op(Measure, [0], [0], []), 400, 1000), Timed(Op(Measure, [1], [1], []), 400, 1000)]
  {
  }

  /** Padding the ASAP schedule gives these instructions, in this order, and the duration 1400. */
  lemma ParBAsapPadded(c: Circuit, durs: seq<nat>)
    requires c.numQubits == 2 && c.numClbits == 2 && |c.ops| == 5 && |durs| == 5
    requires c.ops[0] == Op(Gate("x"), [0], [], []) && durs[0] == 200
    requires c.ops[1] == Op(Gate("x"), [1], [], []) && durs[1] == 400
    requires c.ops[2] == Op(Barrier, [0, 1], [], []) && durs[2] == 0
    requires c.ops[3] == Op(Measure, [0], [0], []) && durs[3] == 1000
    requires c.ops[4] == Op(Measure, [1], [1], []) && durs[4] == 1000
    ensures Pad(c, Some(StartTimes(Asap.Schedule(c, durs, DefaultLatency))), durs, None, true) == Success(Padded([Timed(Op(Gate("x"), [0], [], []), 0, 200), Timed(Op(Gate("x"), [1], [], []), 0, 400), Idle(0, 200, 400), Timed(Op(Barrier, [0, 1], [], []), 400, 0), Timed(Op(Measure, [0], [0], []), 400, 1000), Timed(Op(Measure, [1], [1], []), 400, 1000)], 1400))
  {
    ParBAsap(c, durs);
    var s := Timing.Schedule([0, 0, 400, 400, 400], durs, 1400);
    ParBAsapPadFrom0(map[], [], c.ops, s.starts, durs);
    assert c.ops[0..] == c.ops && s.starts[0..] == s.starts && durs[0..] == durs;
    var st := PadFrom(PadState(map[], []), c.ops, s.starts, durs, None);
    ParBAsapPadLatestEnd(s.starts, durs);
    PadOfSchedule(c, s, None, true, st, 1400);
    ParBAsapPadEndGaps(st.cursor);
    ParBAsapPaddedOut(st.out, []);
  }

  /** Padding from instruction 0 on, given each qubit's cursor. */
  lemma ParBAlapPadFrom0(cur: Avail, o: seq<Timed>, ops: seq<Op>, starts: seq<int>, durs: seq<nat>)
    requires |ops| == 5 && |starts| == 5 && |durs| == 5
    requires ops[0] == Op(Gate("x"), [0], [], []) && starts[0] == 200 && durs[0] == 200
    requires ops[1] == Op(Gate("x"), [1], [], []) && starts[1] == 0 && durs[1] == 400
    requires ops[2] == Op(Barrier, [0, 1], [], []) && starts[2] == 400 && durs[2] == 0
    requires ops[3] == Op(Measure, [0], [0], []) && starts[3] == 400 && durs[3] == 1000
    requires ops[4] == Op(Measure, [1], [1], []) && starts[4] == 400 && durs[4] == 1000
    requires Get(cur, Qubit(0)) == 0 && Get(cur, Qubit(1)) == 0
    ensures var r := PadFrom(PadState(cur, o), ops[0..], starts[0..], durs[0..], None);
      r.out == ((((o + [Idle(0, 0, 200), Timed(Op(Gate("x"), [0], [], []), 200, 200)]) + [Timed(Op(Gate("x"), [1], [], []), 0, 400)]) + [Timed(Op(Barrier, [0, 1], [], []), 400, 0)]) + [Timed(Op(Measure, [0], [0], []), 400, 1000)]) + [Timed(Op(Measure, [1], [1], []), 400, 1000)] && Get(r.cursor, Qubit(0)) == 1400 && Get(r.cursor, Qubit(1)) == 1400
  {
    PadFromAt(PadState(cur, o), ops, starts, durs, None, 0);
    var s0 := PlaceOp(PadState(cur, []), ops[0], starts[0], durs[0], None);
    assert s0.out == [Idle(0, 0, 200), Timed(Op(Gate("x"), [0], [], []), 200, 200)] && Get(s0.cursor, Qubit(0)) == 400 && Get(s0.cursor, Qubit(1)) == 0;
    PlaceOpOut(cur, o, ops[0], starts[0], durs[0], None);
    ParBAlapPadFrom1(s0.cursor, o + [Idle(0, 0, 200), Timed(Op(Gate("x"), [0], [], []), 200, 200)], ops, starts, durs);
  }

  /** Padding from instruction 1 on, given each qubit's cursor. */
  lemma ParBAlapPadFrom1(cur: Avail, o: seq<Timed>, ops: seq<Op>, starts: seq<int>, durs: seq<nat>)
    requires |ops| == 5 && |starts| == 5 && |durs| == 5
    requires ops[1] == Op(Gate("x"), [1], [], []) && starts[1] == 0 && durs[1] == 400
    requires ops[2] == Op(Barrier, [0, 1], [], []) && starts[2] == 400 && durs[2] == 0
    requires ops[3] == Op(Measure, [0], [0], []) && starts[3] == 400 && durs[3] == 1000
    requires ops[4] == Op(Measure, [1], [1], []) && starts[4] == 400 && durs[4] == 1000
    requires Get(cur, Qubit(0)) == 400 && Get(cur, Qubit(1)) == 0
    ensures var r := PadFrom(PadState(cur, o), ops[1..], starts[1..], durs[1..], None);
      r.out == (((o + [Timed(Op(Gate("x"), [1], [], []), 0, 400)]) + [Timed(Op(Barrier, [0, 1], [], []), 400, 0)]) + [Timed(Op(Measure, [0], [0], []), 400, 1000)]) + [Timed(Op(Measure, [1], [1], []), 400, 1000)] && Get(r.cursor, Qubit(0)) == 1400 && Get(r.cursor, Qubit(1)) == 1400
  {
    PadFromAt(PadState(cur, o), ops, starts, durs, None, 1);
    var s1 := PlaceOp(PadState(cur, []), ops[1], starts[1], durs[1], None);
    assert s1.out == [Timed(Op(Gate("x"), [1], [], []), 0, 400)] && Get(s1.cursor, Qubit(0)) == 400 && Get(s1.cursor, Qubit(1)) == 400;
    PlaceOpOut(cur, o, ops[1], starts[1], durs[1], None);
    ParBAlapPadFrom2(s1.cursor, o + [Timed(Op(Gate("x"), [1], [], []), 0, 400)], ops, starts, durs);
  }

  /** Padding from instruction 2 on, given each qubit's cursor. */
  lemma ParBAlapPadFrom2(cur: Avail, o: seq<Timed>, ops: seq<Op>, starts: seq<int>, durs: seq<nat>)
    requires |ops| == 5 && |starts| == 5 && |durs| == 5
    requires ops[2] == Op(Barrier, [0, 1], [], []) && starts[2] == 400 && durs[2] == 0
    requires ops[3] == Op(Measure, [0], [0], []) && starts[3] == 400 && durs[3] == 1000
    requires ops[4] == Op(Measure, [1], [1], []) && starts[4] == 400 && durs[4] == 1000
    requires Get(cur, Qubit(0)) == 400 && Get(cur, Qubit(1)) == 400
    ensures var r := PadFrom(PadState(cur, o), ops[2..], starts[2..], durs[2..], None);
      r.out == ((o + [Timed(Op(Barrier, [0, 1], [], []), 400, 0)]) + [Timed(Op(Measure, [0], [0], []), 400, 1000)]) + [Timed(Op(Measure, [1], [1], []), 400, 1000)] && Get(r.cursor, Qubit(0)) == 1400 && Get(r.cursor, Qubit(1)) == 1400
  {
    PadFromAt(PadState(cur, o), ops, starts, durs, None, 2);
    var s2 := PlaceOp(PadState(cur, []), ops[2], starts[2], durs[2], None);
    assert s2.out == [Timed(Op(Barrier, [0, 1], [], []), 400, 0)] && Get(s2.cursor, Qubit(0)) == 400 && Get(s2.cursor, Qubit(1)) == 400;
    PlaceOpOut(cur, o, ops[2], starts[2], durs[2], None);
    ParBAlapPadFrom3(s2.cursor, o + [Timed(Op(Barrier, [0, 1], [], []), 400, 0)], ops, starts, durs);
  }

  /** Padding from instruction 3 on, given each qubit's cursor. */
  lemma ParBAlapPadFrom3(cur: Avail, o: seq<Timed>, ops: seq<Op>, starts: seq<int>, durs: seq<nat>)
    requires |ops| == 5 && |starts| == 5 && |durs| == 5
    requires ops[3] == Op(Measure, [0], [0], []) && starts[3] == 400 && durs[3] == 1000
    requires ops[4] == Op(Measure, [1], [1], []) && starts[4] == 400 && durs[4] == 1000
    requires Get(cur, Qubit(0)) == 400 && Get(cur, Qubit(1)) == 400
    ensures var r := PadFrom(PadState(cur, o), ops[3..], starts[3..], durs[3..], None);
      r.out == (o + [Timed(Op(Measure, [0], [0], []), 400, 1000)]) + [Timed(Op(Measure, [1], [1], []), 400, 1000)] && Get(r.cursor, Qubit(0)) == 1400 && Get(r.cursor, Qubit(1)) == 1400
  {
    PadFromAt(PadState(cur, o), ops, starts, durs, None, 3);
    var s3 := PlaceOp(PadState(cur, []), ops[3], starts[3], durs[3], None);
    assert s3.out == [Timed(Op(Measure, [0], [0], []), 400, 1000)] && Get(s3.cursor, Qubit(0)) == 1400 && Get(s3.cursor, Qubit(1)) == 400;
    PlaceOpOut(cur, o, ops[3], starts[3], durs[3], None);
    ParBAlapPadFrom4(s3.cursor, o + [Timed(Op(Measure, [0], [0], []), 400, 1000)], ops, starts, durs);
  }

  /** Padding from instruction 4 on, given each qubit's cursor. */
  lemma ParBAlapPadFrom4(cur: Avail, o: seq<Timed>, ops: seq<Op>, starts: seq<int>, durs: seq<nat>)
    requires |ops| == 5 && |starts| == 5 && |durs| == 5
    requires ops[4] == Op(Measure, [1], [1], []) && starts[4] == 400 && durs[4] == 1000
    requires Get(cur, Qubit(0)) == 1400 && Get(cur, Qubit(1)) == 400
    ensures var r := PadFrom(PadState(cur, o), ops[4..], starts[4..], durs[4..], None);
      r.out == o + [Timed(Op(Measure, [1], [1], []), 400, 1000)] && Get(r.cursor, Qubit(0)) == 1400 && Get(r.cursor, Qubit(1)) == 1400
  {
    PadFromAt(PadState(cur, o), ops, starts, durs, None, 4);
    var s4 := PlaceOp(PadState(cur, []), ops[4], starts[4], durs[4], None);
    assert s4.out == [Timed(Op(Measure, [1], [1], []), 400, 1000)] && Get(s4.cursor, Qubit(0)) == 1400 && Get(s4.cursor, Qubit(1)) == 1400;
    PlaceOpOut(cur, o, ops[4], starts[4], durs[4], None);
    assert ops[5..] == [] && starts[5..] == [] && durs[5..] == [];
  }

  /** The latest end of any instruction. */
  lemma ParBAlapPadLatestEnd(starts: seq<int>, durs: seq<nat>)
    requires starts == [200, 0, 400, 400, 400] && |durs| == 5
    requires durs[0] == 200
    requires durs[1] == 400
    requires durs[2] == 0
    requires durs[3] == 1000
    requires durs[4] == 1000
    ensures LatestEnd(starts, durs) == 1400
  {
  }

  /** The delays after the last instruction. */
  lemma ParBAlapPadEndGaps(cur: Avail)
    requires Get(cur, Qubit(0)) == 1400 && Get(cur, Qubit(1)) == 1400
    ensures EndGaps(cur, 2, 1400, None) == []
  {
    assert true && EndGaps(cur, 1, 1400, None) == [];
  }

  /** The padded instructions in order. */
  lemma ParBAlapPaddedOut(body: seq<Timed>, tail: seq<Timed>)
    requires body == (((([] + [Idle(0, 0, 200), Timed(Op(Gate("x"), [0], [], []), 200, 200)]) + [Timed(Op(Gate("x"), [1], [], []), 0, 400)]) + [Timed(Op(Barrier, [0, 1], [], []), 400, 0)]) + [Timed(Op(Measure, [0], [0], []), 400, 1000)]) + [Timed(Op(Measure, [1], [1], []), 400, 1000)] && tail == []
    ensures body + tail == [Idle(0, 0, 200), Timed(Op(Gate("x"), [0], [], []), 200, 200), Timed(Op(Gate("x"), [1], [], []), 0, 400), Timed(Op(Barrier, [0, 1], [], []), 400, 0), Timed(Op(Measure, [0], [0], []), 400, 1000), Timed(Op(Measure, [1], [1], []), 400, 1000)]
  {
  }

  /** Padding the ALAP schedule gives these instructions, in this order, and the duration 1400. */
  lemma ParBAlapPadded(c: Circuit, durs: seq<nat>)
    requires c.numQubits == 2 && c.numClbits == 2 && |c.ops| == 5 && |durs| == 5
    requires c.ops[0] == Op(Gate("x"), [0], [], []) && durs[0] == 200
    requires c.ops[1] == Op(Gate("x"), [1], [], []) && durs[1] == 400
    requires c.ops[2] == Op(Barrier, [0, 1], [], []) && durs[2] == 0
    requires c.ops[3] == Op(Measure, [0], [0], []) && durs[3] == 1000
    requires c.ops[4] == Op(Measure, [1], [1], []) && durs[4] == 1000
    ensures Pad(c, Some(StartTimes(Alap.Schedule(c, durs, DefaultLatency))), durs, None, true) == Success(Padded([Idle(0, 0, 200), Timed(Op(Gate("x"), [0], [], []), 200, 200), Timed(Op(Gate("x"), [1], [], []), 0, 400), Timed(Op(Barrier, [0, 1], [], []), 400, 0), Timed(Op(Measure, [0], [0], []), 400, 1000), Timed(Op(Measure, [1], [1], []), 400, 1000)], 1400))
  {
    ParBAlap(c, durs);
    var s := Timing.Schedule([200, 0, 400, 400, 400], durs, 1400);
    ParBAlapPadFrom0(map[], [], c.ops, s.starts, durs);
    assert c.ops[0..] == c.ops && s.starts[0..] == s.starts && durs[0..] == durs;
    var st := PadFrom(PadState(map[], []), c.ops, s.starts, durs, None);
    ParBAlapPadLatestEnd(s.starts, durs);
    PadOfSchedule(c, s, None, true, st, 1400);
    ParBAlapPadEndGaps(st.cursor);
    ParBAlapPaddedOut(st.out, []);
  }

  /** The duration of each instruction, as the scheduling passes look it up. */
  lemma ParBDurations(c: Circuit)
    requires |c.ops| == 5
    requires c.ops[0] == Op(Gate("x"), [0], [], [])
    requires c.ops[1] == Op(Gate("x"), [1], [], [])
    requires c.ops[2] == Op(Barrier, [0, 1], [], [])
    requires c.ops[3] == Op(Measure, [0], [0], [])
    requires c.ops[4] == Op(Measure, [1], [1], [])
    ensures AllResolved(map[], FromEntries([Entry("x", Some([0]), 200), Entry("x", Some([1]), 400), Entry("measure", None, 1000)]), c.ops) && DurationsOf(map[], FromEntries([Entry("x", Some([0]), 200), Entry("x", Some([1]), 400), Entry("measure", None, 1000)]), c.ops) == [200, 400, 0, 1000, 1000]
  {
    var t := FromEntries([Entry("x", Some([0]), 200), Entry("x", Some([1]), 400), Entry("measure", None, 1000)]);
    assert NodeDuration(map[], t, c.ops[0]) == Some(200);
    assert NodeDuration(map[], t, c.ops[1]) == Some(400);
    assert NodeDuration(map[], t, c.ops[2]) == Some(0);
    assert NodeDuration(map[], t, c.ops[3]) == Some(1000);
    assert NodeDuration(map[], t, c.ops[4]) == Some(1000);
    DurationsAre(map[], t, c.ops, [200, 400, 0, 1000, 1000]);
  }
}
