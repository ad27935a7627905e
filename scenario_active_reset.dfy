/** Three rounds of measure then conditional X on one qubit, under the three
    (write latency, conditional latency) pairs (100, 200), (500, 0), (1000, 200);
    lemma names carry the write latency. */
module ActiveReset {
  import opened Circuits
  import opened Timing
  import opened Durations
  import opened Constraints
  import opened Padding
  import Asap
  import Alap

  /** The circuit is well formed. */
  lemma Reset100WellFormed(c: Circuit)
    requires c.numQubits == 1 && c.numClbits == 1 && |c.ops| == 6
    requires c.ops[0] == Op(Measure, [0], [0], [])
    requires c.ops[1] == Op(Gate("x"), [0], [], [0])
    requires c.ops[2] == Op(Measure, [0], [0], [])
    requires c.ops[3] == Op(Gate("x"), [0], [], [0])
    requires c.ops[4] == Op(Measure, [0], [0], [])
    requires c.ops[5] == Op(Gate("x"), [0], [], [0])
    ensures WellFormed(c)
  {
    assert WellFormedOp(c.ops[0], 1, 1);
    assert WellFormedOp(c.ops[1], 1, 1);
    assert WellFormedOp(c.ops[2], 1, 1);
    assert WellFormedOp(c.ops[3], 1, 1);
    assert WellFormedOp(c.ops[4], 1, 1);
    assert WellFormedOp(c.ops[5], 1, 1);
  }

  /** ASAP from instruction 0 on, given when each wire is free. */
  lemma Reset100AsapFrom0(a: Avail, ops: seq<Op>, durs: seq<nat>)
    requires |ops| == 6 && |durs| == 6
    requires ops[0] == Op(Measure, [0], [0], []) && durs[0] == 1000
    requires ops[1] == Op(Gate("x"), [0], [], [0]) && durs[1] == 100
    requires ops[2] == Op(Measure, [0], [0], []) && durs[2] == 1000
    requires ops[3] == Op(Gate("x"), [0], [], [0]) && durs[3] == 100
    requires ops[4] == Op(Measure, [0], [0], []) && durs[4] == 1000
    requires ops[5] == Op(Gate("x"), [0], [], [0]) && durs[5] == 100
    requires Get(a, Qubit(0)) == 0 && Get(a, Clbit(0)) == 0
    ensures var r := Asap.RunFrom(a, ops[0..], durs[0..], IOLatency(200, 100));
      r.starts == [0, 1200] + ([1300, 2500] + ([2600, 3800])) && Span(r.avail, 1, 1) == 3900
  {
    var p0 := Asap.Step(a, ops[0], durs[0], IOLatency(200, 100));
    assert p0.start == 0 && Get(p0.avail, Qubit(0)) == 1000 && Get(p0.avail, Clbit(0)) == 1000 by {
      assert QubitWires([0]) == [Qubit(0)] && MaxOver(a, [Qubit(0)]) == 0 && ClbitWires([0]) == [Clbit(0)] && MaxOver(a, [Clbit(0)]) == 0;
    }
    var p1 := Asap.Step(p0.avail, ops[1], durs[1], IOLatency(200, 100));
    assert p1.start == 1200 && Get(p1.avail, Qubit(0)) == 1300 && Get(p1.avail, Clbit(0)) == 1200 by {
      assert QubitWires([0]) == [Qubit(0)] && MaxOver(p0.avail, [Qubit(0)]) == 1000 && ClbitWires([0]) == [Clbit(0)] && MaxOver(p0.avail, [Clbit(0)]) == 1000;
    }
    Asap.RunFromSteps([a, p0.avail, p1.avail], ops[0..2], durs[0..2], [0, 1200], IOLatency(200, 100));
    Asap.RunFromSplit(a, ops, durs, IOLatency(200, 100), 0, 2);
    Reset100AsapFrom2(p1.avail, ops, durs);
  }

  /** ASAP from instruction 2 on, given when each wire is free. */
  lemma Reset100AsapFrom2(a: Avail, ops: seq<Op>, durs: seq<nat>)
    requires |ops| == 6 && |durs| == 6
    requires ops[2] == Op(Measure, [0], [0], []) && durs[2] == 1000
    requires ops[3] == Op(Gate("x"), [0], [], [0]) && durs[3] == 100
    requires ops[4] == Op(Measure, [0], [0], []) && durs[4] == 1000
    requires ops[5] == Op(Gate("x"), [0], [], [0]) && durs[5] == 100
    requires Get(a, Qubit(0)) == 1300 && Get(a, Clbit(0)) == 1200
    ensures var r := Asap.RunFrom(a, ops[2..], durs[2..], IOLatency(200, 100));
      r.starts == [1300, 2500] + ([2600, 3800]) && Span(r.avail, 1, 1) == 3900
  {
    var p2 := Asap.Step(a, ops[2], durs[2], IOLatency(200, 100));
    assert p2.start == 1300 && Get(p2.avail, Qubit(0)) == 2300 && Get(p2.avail, Clbit(0)) == 2300 by {
      assert QubitWires([0]) == [Qubit(0)] && MaxOver(a, [Qubit(0)]) == 1300 && ClbitWires([0]) == [Clbit(0)] && MaxOver(a, [Clbit(0)]) == 1200;
    }
    var p3 := Asap.Step(p2.avail, ops[3], durs[3], IOLatency(200, 100));
    assert p3.start == 2500 && Get(p3.avail, Qubit(0)) == 2600 && Get(p3.avail, Clbit(0)) == 2500 by {
      assert QubitWires([0]) == [Qubit(0)] && MaxOver(p2.avail, [Qubit(0)]) == 2300 && ClbitWires([0]) == [Clbit(0)] && MaxOver(p2.avail, [Clbit(0)]) == 2300;
    }
    Asap.RunFromSteps([a, p2.avail, p3.avail], ops[2..4], durs[2..4], [1300, 2500], IOLatency(200, 100));
    Asap.RunFromSplit(a, ops, durs, IOLatency(200, 100), 2, 4);
    Reset100AsapFrom4(p3.avail, ops, durs);
  }

  /** ASAP from instruction 4 on, given when each wire is free. */
  lemma Reset100AsapFrom4(a: Avail, ops: seq<Op>, durs: seq<nat>)
    requires |ops| == 6 && |durs| == 6
    requires ops[4] == Op(Measure, [0], [0], []) && durs[4] == 1000
    requires ops[5] == Op(Gate("x"), [0], [], [0]) && durs[5] == 100
    requires Get(a, Qubit(0)) == 2600 && Get(a, Clbit(0)) == 2500
    ensures var r := Asap.RunFrom(a, ops[4..], durs[4..], IOLatency(200, 100));
      r.starts == [2600, 3800] && Span(r.avail, 1, 1) == 3900
  {
    var p4 := Asap.Step(a, ops[4], durs[4], IOLatency(200, 100));
    assert p4.start == 2600 && Get(p4.avail, Qubit(0)) == 3600 && Get(p4.avail, Clbit(0)) == 3600 by {
      assert QubitWires([0]) == [Qubit(0)] && MaxOver(a, [Qubit(0)]) == 2600 && ClbitWires([0]) == [Clbit(0)] && MaxOver(a, [Clbit(0)]) == 2500;
    }
    var p5 := Asap.Step(p4.avail, ops[5], durs[5], IOLatency(200, 100));
    assert p5.start == 3800 && Get(p5.avail, Qubit(0)) == 3900 && Get(p5.avail, Clbit(0)) == 3800 by {
      assert QubitWires([0]) == [Qubit(0)] && MaxOver(p4.avail, [Qubit(0)]) == 3600 && ClbitWires([0]) == [Clbit(0)] && MaxOver(p4.avail, [Clbit(0)]) == 3600;
    }
    Asap.RunFromSteps([a, p4.avail, p5.avail], ops[4..], durs[4..], [2600, 3800], IOLatency(200, 100));
    assert Span(p5.avail, 1, 1) == 3900 by {
      assert AllWires(1, 1) == [Qubit(0), Clbit(0)] && MaxOver(p5.avail, [Clbit(0)]) == 3800 && MaxOver(p5.avail, [Qubit(0), Clbit(0)]) == 3900;
    }
  }

  /** The start times, gathered. */
  lemma Reset100AsapStarts(starts: seq<int>)
    requires starts == [0, 1200] + ([1300, 2500] + ([2600, 3800]))
    ensures starts == [0, 1200, 1300, 2500, 2600, 3800]
  {
  }

  /** ASAP scheduling starts the instructions at [0, 1200, 1300, 2500, 2600, 3800], and the circuit lasts 3900. */
  lemma Reset100Asap(c: Circuit, durs: seq<nat>)
    requires c.numQubits == 1 && c.numClbits == 1 && |c.ops| == 6 && |durs| == 6
    requires c.ops[0] == Op(Measure, [0], [0], []) && durs[0] == 1000
    requires c.ops[1] == Op(Gate("x"), [0], [], [0]) && durs[1] == 100
    requires c.ops[2] == Op(Measure, [0], [0], []) && durs[2] == 1000
    requires c.ops[3] == Op(Gate("x"), [0], [], [0]) && durs[3] == 100
    requires c.ops[4] == Op(Measure, [0], [0], []) && durs[4] == 1000
    requires c.ops[5] == Op(Gate("x"), [0], [], [0]) && durs[5] == 100
    ensures WellFormed(c)
    ensures Asap.Schedule(c, durs, IOLatency(200, 100)) == Timing.Schedule([0, 1200, 1300, 2500, 2600, 3800], durs, 3900)
  {
    Reset100WellFormed(c);
    WellFormedSchedulable(c);
    Asap.RunIsRunFrom(c.ops, durs, IOLatency(200, 100));
    assert c.ops[0..] == c.ops && durs[0..] == durs;
    Reset100AsapFrom0(map[], c.ops, durs);
    Reset100AsapStarts(Asap.Run(c.ops, durs, IOLatency(200, 100)).starts);
  }

  /** ALAP over the instructions before 2, given when each wire is needed by the later ones. */
  lemma Reset100AlapTo2(a: Avail, ops: seq<Op>, durs: seq<nat>)
    requires |ops| == 6 && |durs| == 6
    requires ops[0] == Op(Measure, [0], [0], []) && durs[0] == 1000
    requires ops[1] == Op(Gate("x"), [0], [], [0]) && durs[1] == 100
    requires Get(a, Qubit(0)) == 2600 && Get(a, Clbit(0)) == 2500
    ensures var r := Alap.RunFrom(a, ops[..2], durs[..2], IOLatency(200, 100));
      r.starts == [2900, 2600] && Span(r.avail, 1, 1) == 3900
  {
    var p1 := Alap.Step(a, ops[1], durs[1], IOLatency(200, 100));
    assert p1.start == 2600 && Get(p1.avail, Qubit(0)) == 2700 && Get(p1.avail, Clbit(0)) == 2900 by {
      assert QubitWires([0]) == [Qubit(0)] && MaxOver(a, [Qubit(0)]) == 2600 && ClbitWires([0]) == [Clbit(0)] && MaxOver(a, [Clbit(0)]) == 2500;
    }
    var p0 := Alap.Step(p1.avail, ops[0], durs[0], IOLatency(200, 100));
    assert p0.start == 2900 && Get(p0.avail, Qubit(0)) == 3900 && Get(p0.avail, Clbit(0)) == 3800 by {
      assert QubitWires([0]) == [Qubit(0)] && MaxOver(p1.avail, [Qubit(0)]) == 2700 && ClbitWires([0]) == [Clbit(0)] && MaxOver(p1.avail, [Clbit(0)]) == 2900;
    }
    Alap.RunFromSteps([p0.avail, p1.avail, a], ops[0..2], durs[0..2], [2900, 2600], IOLatency(200, 100));
    Alap.RunFromSplit(a, ops, durs, IOLatency(200, 100), 0, 2);
    assert Span(p0.avail, 1, 1) == 3900 by {
      assert AllWires(1, 1) == [Qubit(0), Clbit(0)] && MaxOver(p0.avail, [Clbit(0)]) == 3800 && MaxOver(p0.avail, [Qubit(0), Clbit(0)]) == 3900;
    }
  }

  /** ALAP over the instructions before 4, given when each wire is needed by the later ones. */
  lemma Reset100AlapTo4(a: Avail, ops: seq<Op>, durs: seq<nat>)
    requires |ops| == 6 && |durs| == 6
    requires ops[0] == Op(Measure, [0], [0], []) && durs[0] == 1000
    requires ops[1] == Op(Gate("x"), [0], [], [0]) && durs[1] == 100
    requires ops[2] == Op(Measure, [0], [0], []) && durs[2] == 1000
    requires ops[3] == Op(Gate("x"), [0], [], [0]) && durs[3] == 100
    requires Get(a, Qubit(0)) == 1300 && Get(a, Clbit(0)) == 1200
    ensures var r := Alap.RunFrom(a, ops[..4], durs[..4], IOLatency(200, 100));
      r.starts == ([2900, 2600]) + [1600, 1300] && Span(r.avail, 1, 1) == 3900
  {
    var p3 := Alap.Step(a, ops[3], durs[3], IOLatency(200, 100));
    assert p3.start == 1300 && Get(p3.avail, Qubit(0)) == 1400 && Get(p3.avail, Clbit(0)) == 1600 by {
      assert QubitWires([0]) == [Qubit(0)] && MaxOver(a, [Qubit(0)]) == 1300 && ClbitWires([0]) == [Clbit(0)] && MaxOver(a, [Clbit(0)]) == 1200;
    }
    var p2 := Alap.Step(p3.avail, ops[2], durs[2], IOLatency(200, 100));
    assert p2.start == 1600 && Get(p2.avail, Qubit(0)) == 2600 && Get(p2.avail, Clbit(0)) == 2500 by {
      assert QubitWires([0]) == [Qubit(0)] && MaxOver(p3.avail, [Qubit(0)]) == 1400 && ClbitWires([0]) == [Clbit(0)] && MaxOver(p3.avail, [Clbit(0)]) == 1600;
    }
    Alap.RunFromSteps([p2.avail, p3.avail, a], ops[2..4], durs[2..4], [1600, 1300], IOLatency(200, 100));
    Alap.RunFromSplit(a, ops, durs, IOLatency(200, 100), 2, 4);
    Reset100AlapTo2(p2.avail, ops, durs);
  }

  /** ALAP over the instructions before 6, given when each wire is needed by the later ones. */
  lemma Reset100AlapTo6(a: Avail, ops: seq<Op>, durs: seq<nat>)
    requires |ops| == 6 && |durs| == 6
    requires ops[0] == Op(Measure, [0], [0], []) && durs[0] == 1000
    requires ops[1] == Op(Gate("x"), [0], [], [0]) && durs[1] == 100
    requires ops[2] == Op(Measure, [0], [0], []) && durs[2] == 1000
    requires ops[3] == Op(Gate("x"), [0], [], [0]) && durs[3] == 100
    requires ops[4] == Op(Measure, [0], [0], []) && durs[4] == 1000
    requires ops[5] == Op(Gate("x"), [0], [], [0]) && durs[5] == 100
    requires Get(a, Qubit(0)) == 0 && Get(a, Clbit(0)) == 0
    ensures var r := Alap.RunFrom(a, ops[..6], durs[..6], IOLatency(200, 100));
      r.starts == (([2900, 2600]) + [1600, 1300]) + [300, 0] && Span(r.avail, 1, 1) == 3900
  {
    var p5 := Alap.Step(a, ops[5], durs[5], IOLatency(200, 100));
    assert p5.start == 0 && Get(p5.avail, Qubit(0)) == 100 && Get(p5.avail, Clbit(0)) == 300 by {
      assert QubitWires([0]) == [Qubit(0)] && MaxOver(a, [Qubit(0)]) == 0 && ClbitWires([0]) == [Clbit(0)] && MaxOver(a, [Clbit(0)]) == 0;
    }
    var p4 := Alap.Step(p5.avail, ops[4], durs[4], IOLatency(200, 100));
    assert p4.start == 300 && Get(p4.avail, Qubit(0)) == 1300 && Get(p4.avail, Clbit(0)) == 1200 by {
      assert QubitWires([0]) == [Qubit(0)] && MaxOver(p5.avail, [Qubit(0)]) == 100 && ClbitWires([0]) == [Clbit(0)] && MaxOver(p5.avail, [Clbit(0)]) == 300;
    }
    Alap.RunFromSteps([p4.avail, p5.avail, a], ops[4..6], durs[4..6], [300, 0], IOLatency(200, 100));
    Alap.RunFromSplit(a, ops, durs, IOLatency(200, 100), 4, 6);
    Reset100AlapTo4(p4.avail, ops, durs);
  }

  /** Start times counted from the beginning. */
  lemma Reset100AlapFlip(ends: seq<int>, durs: seq<nat>)
    requires ends == (([2900, 2600]) + [1600, 1300]) + [300, 0] && |durs| == 6
    requires durs[0] == 1000
    requires durs[1] == 100
    requires durs[2] == 1000
    requires durs[3] == 100
    requires durs[4] == 1000
    requires durs[5] == 100
    ensures Alap.Flip(ends, durs, 3900) == [0, 1200, 1300, 2500, 2600, 3800]
  {
  }
  /** ALAP scheduling starts the instructions at [0, 1200, 1300, 2500, 2600, 3800], and the circuit lasts 3900. */
  lemma Reset100Alap(c: Circuit, durs: seq<nat>)
    requires c.numQubits == 1 && c.numClbits == 1 && |c.ops| == 6 && |durs| == 6
    requires c.ops[0] == Op(Measure, [0], [0], []) && durs[0] == 1000
    requires c.ops[1] == Op(Gate("x"), [0], [], [0]) && durs[1] == 100
    requires c.ops[2] == Op(Measure, [0], [0], []) && durs[2] == 1000
    requires c.ops[3] == Op(Gate("x"), [0], [], [0]) && durs[3] == 100
    requires c.ops[4] == Op(Measure, [0], [0], []) && durs[4] == 1000
    requires c.ops[5] == Op(Gate("x"), [0], [], [0]) && durs[5] == 100
    ensures WellFormed(c)
    ensures Alap.Schedule(c, durs, IOLatency(200, 100)) == Timing.Schedule([0, 1200, 1300, 2500, 2600, 3800], durs, 3900)
  {
    Reset100WellFormed(c);
    WellFormedSchedulable(c);
    Alap.RunIsRunFrom(c.ops, durs, IOLatency(200, 100));
    assert c.ops[..6] == c.ops && durs[..6] == durs;
    Reset100AlapTo6(map[], c.ops, durs);
    Reset100AlapFlip(Alap.Run(c.ops, durs, IOLatency(200, 100)).starts, durs);
  }

  /** Padding from instruction 0 on, given each qubit's cursor. */
  lemma Reset100AsapPadFrom0(cur: Avail, o: seq<Timed>, ops: seq<Op>, starts: seq<int>, durs: seq<nat>)
    requires |ops| == 6 && |starts| == 6 && |durs| == 6
    requires ops[0] == Op(Measure, [0], [0], []) && starts[0] == 0 && durs[0] == 1000
    requires ops[1] == Op(Gate("x"), [0], [], [0]) && starts[1] == 1200 && durs[1] == 100
    requires ops[2] == Op(Measure, [0], [0], []) && starts[2] == 1300 && durs[2] == 1000
    requires ops[3] == Op(Gate("x"), [0], [], [0]) && starts[3] == 2500 && durs[3] == 100
    requires ops[4] == Op(Measure, [0], [0], []) && starts[4] == 2600 && durs[4] == 1000
    requires ops[5] == Op(Gate("x"), [0], [], [0]) && starts[5] == 3800 && durs[5] == 100
    requires Get(cur, Qubit(0)) == 0
    ensures var r := PadFrom(PadState(cur, o), ops[0..], starts[0..], durs[0..], None);
      r.out == (((((o + [Timed(Op(Measure, [0], [0], []), 0, 1000)]) + [Idle(0, 1000, 1200), Timed(Op(Gate("x"), [0], [], [0]), 1200, 100)]) + [Timed(Op(Measure, [0], [0], []), 1300, 1000)]) + [Idle(0, 2300, 2500), Timed(Op(Gate("x"), [0], [], [0]), 2500, 100)]) + [Timed(Op(Measure, [0], [0], []), 2600, 1000)]) + [Idle(0, 3600, 3800), Timed(Op(Gate("x"), [0], [], [0]), 3800, 100)] && Get(r.cursor, Qubit(0)) == 3900
  {
    PadFromAt(PadState(cur, o), ops, starts, durs, None, 0);
    var s0 := PlaceOp(PadState(cur, []), ops[0], starts[0], durs[0], None);
    assert s0.out == [Timed(Op(Measure, [0], [0], []), 0, 1000)] && Get(s0.cursor, Qubit(0)) == 1000;
    PlaceOpOut(cur, o, ops[0], starts[0], durs[0], None);
    Reset100AsapPadFrom1(s0.cursor, o + [Timed(Op(Measure, [0], [0], []), 0, 1000)], ops, starts, durs);
  }

  /** Padding from instruction 1 on, given each qubit's cursor. */
  lemma Reset100AsapPadFrom1(cur: Avail, o: seq<Timed>, ops: seq<Op>, starts: seq<int>, durs: seq<nat>)
    requires |ops| == 6 && |starts| == 6 && |durs| == 6
    requires ops[1] == Op(Gate("x"), [0], [], [0]) && starts[1] == 1200 && durs[1] == 100
    requires ops[2] == Op(Measure, [0], [0], []) && starts[2] == 1300 && durs[2] == 1000
    requires ops[3] == Op(Gate("x"), [0], [], [0]) && starts[3] == 2500 && durs[3] == 100
    requires ops[4] == Op(Measure, [0], [0], []) && starts[4] == 2600 && durs[4] == 1000
    requires ops[5] == Op(Gate("x"), [0], [], [0]) && starts[5] == 3800 && durs[5] == 100
    requires Get(cur, Qubit(0)) == 1000
    ensures var r := PadFrom(PadState(cur, o), ops[1..], starts[1..], durs[1..], None);
      r.out == ((((o + [Idle(0, 1000, 1200), Timed(Op(Gate("x"), [0], [], [0]), 1200, 100)]) + [Timed(Op(Measure, [0], [0], []), 1300, 1000)]) + [Idle(0, 2300, 2500), Timed(Op(Gate("x"), [0], [], [0]), 2500, 100)]) + [Timed(Op(Measure, [0], [0], []), 2600, 1000)]) + [Idle(0, 3600, 3800), Timed(Op(Gate("x"), [0], [], [0]), 3800, 100)] && Get(r.cursor, Qubit(0)) == 3900
  {
    PadFromAt(PadState(cur, o), ops, starts, durs, None, 1);
    var s1 := PlaceOp(PadState(cur, []), ops[1], starts[1], durs[1], None);
    assert s1.out == [Idle(0, 1000, 1200), Timed(Op(Gate("x"), [0], [], [0]), 1200, 100)] && Get(s1.cursor, Qubit(0)) == 1300;
    PlaceOpOut(cur, o, ops[1], starts[1], durs[1], None);
    Reset100AsapPadFrom2(s1.cursor, o + [Idle(0, 1000, 1200), Timed(Op(Gate("x"), [0], [], [0]), 1200, 100)], ops, starts, durs);
  }

  /** Padding from instruction 2 on, given each qubit's cursor. */
  lemma Reset100AsapPadFrom2(cur: Avail, o: seq<Timed>, ops: seq<Op>, starts: seq<int>, durs: seq<nat>)
    requires |ops| == 6 && |starts| == 6 && |durs| == 6
    requires ops[2] == Op(Measure, [0], [0], []) && starts[2] == 1300 && durs[2] == 1000
    requires ops[3] == Op(Gate("x"), [0], [], [0]) && starts[3] == 2500 && durs[3] == 100
    requires ops[4] == Op(Measure, [0], [0], []) && starts[4] == 2600 && durs[4] == 1000
    requires ops[5] == Op(Gate("x"), [0], [], [0]) && starts[5] == 3800 && durs[5] == 100
    requires Get(cur, Qubit(0)) == 1300
    ensures var r := PadFrom(PadState(cur, o), ops[2..], starts[2..], durs[2..], None);
      r.out == (((o + [Timed(Op(Measure, [0], [0], []), 1300, 1000)]) + [Idle(0, 2300, 2500), Timed(Op(Gate("x"), [0], [], [0]), 2500, 100)]) + [Timed(Op(Measure, [0], [0], []), 2600, 1000)]) + [Idle(0, 3600, 3800), Timed(Op(Gate("x"), [0], [], [0]), 3800, 100)] && Get(r.cursor, Qubit(0)) == 3900
  {
    PadFromAt(PadState(cur, o), ops, starts, durs, None, 2);
    var s2 := PlaceOp(PadState(cur, []), ops[2], starts[2], durs[2], None);
    assert s2.out == [Timed(Op(Measure, [0], [0], []), 1300, 1000)] && Get(s2.cursor, Qubit(0)) == 2300;
    PlaceOpOut(cur, o, ops[2], starts[2], durs[2], None);
    Reset100AsapPadFrom3(s2.cursor, o + [Timed(Op(Measure, [0], [0], []), 1300, 1000)], ops, starts, durs);
  }

  /** Padding from instruction 3 on, given each qubit's cursor. */
  lemma Reset100AsapPadFrom3(cur: Avail, o: seq<Timed>, ops: seq<Op>, starts: seq<int>, durs: seq<nat>)
    requires |ops| == 6 && |starts| == 6 && |durs| == 6
    requires ops[3] == Op(Gate("x"), [0], [], [0]) && starts[3] == 2500 && durs[3] == 100
    requires ops[4] == Op(Measure, [0], [0], []) && starts[4] == 2600 && durs[4] == 1000
    requires ops[5] == Op(Gate("x"), [0], [], [0]) && starts[5] == 3800 && durs[5] == 100
    requires Get(cur, Qubit(0)) == 2300
    ensures var r := PadFrom(PadState(cur, o), ops[3..], starts[3..], durs[3..], None);
      r.out == ((o + [Idle(0, 2300, 2500), Timed(Op(Gate("x"), [0], [], [0]), 2500, 100)]) + [Timed(Op(Measure, [0], [0], []), 2600, 1000)]) + [Idle(0, 3600, 3800), Timed(Op(Gate("x"), [0], [], [0]), 3800, 100)] && Get(r.cursor, Qubit(0)) == 3900
  {
    PadFromAt(PadState(cur, o), ops, starts, durs, None, 3);
    var s3 := PlaceOp(PadState(cur, []), ops[3], starts[3], durs[3], None);
    assert s3.out == [Idle(0, 2300, 2500), Timed(Op(Gate("x"), [0], [], [0]), 2500, 100)] && Get(s3.cursor, Qubit(0)) == 2600;
    PlaceOpOut(cur, o, ops[3], starts[3], durs[3], None);
    Reset100AsapPadFrom4(s3.cursor, o + [Idle(0, 2300, 2500), Timed(Op(Gate("x"), [0], [], [0]), 2500, 100)], ops, starts, durs);
  }

  /** Padding from instruction 4 on, given each qubit's cursor. */
  lemma Reset100AsapPadFrom4(cur: Avail, o: seq<Timed>, ops: seq<Op>, starts: seq<int>, durs: seq<nat>)
    requires |ops| == 6 && |starts| == 6 && |durs| == 6
    requires ops[4] == Op(Measure, [0], [0], []) && starts[4] == 2600 && durs[4] == 1000
    requires ops[5] == Op(Gate("x"), [0], [], [0]) && starts[5] == 3800 && durs[5] == 100
    requires Get(cur, Qubit(0)) == 2600
    ensures var r := PadFrom(PadState(cur, o), ops[4..], starts[4..], durs[4..], None);
      r.out == (o + [Timed(Op(Measure, [0], [0], []), 2600, 1000)]) + [Idle(0, 3600, 3800), Timed(Op(Gate("x"), [0], [], [0]), 3800, 100)] && Get(r.cursor, Qubit(0)) == 3900
  {
    PadFromAt(PadState(cur, o), ops, starts, durs, None, 4);
    var s4 := PlaceOp(PadState(cur, []), ops[4], starts[4], durs[4], None);
    assert s4.out == [Timed(Op(Measure, [0], [0], []), 2600, 1000)] && Get(s4.cursor, Qubit(0)) == 3600;
    PlaceOpOut(cur, o, ops[4], starts[4], durs[4], None);
    Reset100AsapPadFrom5(s4.cursor, o + [Timed(Op(Measure, [0], [0], []), 2600, 1000)], ops, starts, durs);
  }

  /** Padding from instruction 5 on, given each qubit's cursor. */
  lemma Reset100AsapPadFrom5(cur: Avail, o: seq<Timed>, ops: seq<Op>, starts: seq<int>, durs: seq<nat>)
    requires |ops| == 6 && |starts| == 6 && |durs| == 6
    requires ops[5] == Op(Gate("x"), [0], [], [0]) && starts[5] == 3800 && durs[5] == 100
    requires Get(cur, Qubit(0)) == 3600
    ensures var r := PadFrom(PadState(cur, o), ops[5..], starts[5..], durs[5..], None);
      r.out == o + [Idle(0, 3600, 3800), Timed(Op(Gate("x"), [0], [], [0]), 3800, 100)] && Get(r.cursor, Qubit(0)) == 3900
  {
    PadFromAt(PadState(cur, o), ops, starts, durs, None, 5);
    var s5 := PlaceOp(PadState(cur, []), ops[5], starts[5], durs[5], None);
    assert s5.out == [Idle(0, 3600, 3800), Timed(Op(Gate("x"), [0], [], [0]), 3800, 100)] && Get(s5.cursor, Qubit(0)) == 3900;
    PlaceOpOut(cur, o, ops[5], starts[5], durs[5], None);
    assert ops[6..] == [] && starts[6..] == [] && durs[6..] == [];
  }

  /** The latest end of any instruction. */
  lemma Reset100AsapPadLatestEnd(starts: seq<int>, durs: seq<nat>)
    requires starts == [0, 1200, 1300, 2500, 2600, 3800] && |durs| == 6
    requires durs[0] == 1000
    requires durs[1] == 100
    requires durs[2] == 1000
    requires durs[3] == 100
    requires durs[4] == 1000
    requires durs[5] == 100
    ensures LatestEnd(starts, durs) == 3900
  {
  }

  /** The delays after the last instruction. */
  lemma Reset100AsapPadEndGaps(cur: Avail)
    requires Get(cur, Qubit(0)) == 3900
    ensures EndGaps(cur, 1, 3900, None) == []
  {
    assert true;
  }

  /** The padded instructions in order. */
  lemma Reset100AsapPaddedOut(body: seq<Timed>, tail: seq<Timed>)
    requires body == ((((([] + [Timed(Op(Measure, [0], [0], []), 0, 1000)]) + [Idle(0, 1000, 1200), Timed(Op(Gate("x"), [0], [], [0]), 1200, 100)]) + [Timed(Op(Measure, [0], [0], []), 1300, 1000)]) + [Idle(0, 2300, 2500), Timed(Op(Gate("x"), [0], [], [0]), 2500, 100)]) + [Timed(Op(Measure, [0], [0], []), 2600, 1000)]) + [Idle(0, 3600, 3800), Timed(Op(Gate("x"), [0], [], [0]), 3800, 100)] && tail == []
    ensures body + tail == [Timed(Op(Measure, [0], [0], []), 0, 1000), Idle(0, 1000, 1200), Timed(Op(Gate("x"), [0], [], [0]), 1200, 100), Timed(Op(Measure, [0], [0], []), 1300, 1000), Idle(0, 2300, 2500), Timed(Op(Gate("x"), [0], [], [0]), 2500, 100), Timed(Op(Measure, [0], [0], []), 2600, 1000), Idle(0, 3600, 3800), Timed(Op(Gate("x"), [0], [], [0]), 3800, 100)]
  {
  }

  /** Padding the ASAP schedule gives these instructions, in this order, and the duration 3900. */
  lemma Reset100AsapPadded(c: Circuit, durs: seq<nat>)
    requires c.numQubits == 1 && c.numClbits == 1 && |c.ops| == 6 && |durs| == 6
    requires c.ops[0] == Op(Measure, [0], [0], []) && durs[0] == 1000
    requires c.ops[1] == Op(Gate("x"), [0], [], [0]) && durs[1] == 100
    requires c.ops[2] == Op(Measure, [0], [0], []) && durs[2] == 1000
    requires c.ops[3] == Op(Gate("x"), [0], [], [0]) && durs[3] == 100
    requires c.ops[4] == Op(Measure, [0], [0], []) && durs[4] == 1000
    requires c.ops[5] == Op(Gate("x"), [0], [], [0]) && durs[5] == 100
    ensures Pad(c, Some(StartTimes(Asap.Schedule(c, durs, IOLatency(200, 100)))), durs, None, true) == Success(Padded([Timed(Op(Measure, [0], [0], []), 0, 1000), Idle(0, 1000, 1200), Timed(Op(Gate("x"), [0], [], [0]), 1200, 100), Timed(Op(Measure, [0], [0], []), 1300, 1000), Idle(0, 2300, 2500), Timed(Op(Gate("x"), [0], [], [0]), 2500, 100), Timed(Op(Measure, [0], [0], []), 2600, 1000), Idle(0, 3600, 3800), Timed(Op(Gate("x"), [0], [], [0]), 3800, 100)], 3900))
  {
    Reset100Asap(c, durs);
    var s := Timing.Schedule([0, 1200, 1300, 2500, 2600, 3800], durs, 3900);
    Reset100AsapPadFrom0(map[], [], c.ops, s.starts, durs);
    assert c.ops[0..] == c.ops && s.starts[0..] == s.starts && durs[0..] == durs;
    var st := PadFrom(PadState(map[], []), c.ops, s.starts, durs, None);
    Reset100AsapPadLatestEnd(s.starts, durs);
    PadOfSchedule(c, s, None, true, st, 3900);
    Reset100AsapPadEndGaps(st.cursor);
    Reset100AsapPaddedOut(st.out, []);
  }

  /** The padded instructions in order. */
  lemma Reset100AlapPaddedOut(body: seq<Timed>, tail: seq<Timed>)
    requires body == ((((([] + [Timed(Op(Measure, [0], [0], []), 0, 1000)]) + [Idle(0, 1000, 1200), Timed(Op(Gate("x"), [0], [], [0]), 1200, 100)]) + [Timed(Op(Measure, [0], [0], []), 1300, 1000)]) + [Idle(0, 2300, 2500), Timed(Op(Gate("x"), [0], [], [0]), 2500, 100)]) + [Timed(Op(Measure, [0], [0], []), 2600, 1000)]) + [Idle(0, 3600, 3800), Timed(Op(Gate("x"), [0], [], [0]), 3800, 100)] && tail == []
    ensures body + tail == [Timed(Op(Measure, [0], [0], []), 0, 1000), Idle(0, 1000, 1200), Timed(Op(Gate("x"), [0], [], [0]), 1200, 100), Timed(Op(Measure, [0], [0], []), 1300, 1000), Idle(0, 2300, 2500), Timed(Op(Gate("x"), [0], [], [0]), 2500, 100), Timed(Op(Measure, [0], [0], []), 2600, 1000), Idle(0, 3600, 3800), Timed(Op(Gate("x"), [0], [], [0]), 3800, 100)]
  {
  }

  /** Padding the ALAP schedule gives these instructions, in this order, and the duration 3900. */
  lemma Reset100AlapPadded(c: Circuit, durs: seq<nat>)
    requires c.numQubits == 1 && c.numClbits == 1 && |c.ops| == 6 && |durs| == 6
    requires c.ops[0] == Op(Measure, [0], [0], []) && durs[0] == 1000
    requires c.ops[1] == Op(Gate("x"), [0], [], [0]) && durs[1] == 100
    requires c.ops[2] == Op(Measure, [0], [0], []) && durs[2] == 1000
    requires c.ops[3] == Op(Gate("x"), [0], [], [0]) && durs[3] == 100
    requires c.ops[4] == Op(Measure, [0], [0], []) && durs[4] == 1000
    requires c.ops[5] == Op(Gate("x"), [0], [], [0]) && durs[5] == 100
    ensures Pad(c, Some(StartTimes(Alap.Schedule(c, durs, IOLatency(200, 100)))), durs, None, true) == Success(Padded([Timed(Op(Measure, [0], [0], []), 0, 1000), Idle(0, 1000, 1200), Timed(Op(Gate("x"), [0], [], [0]), 1200, 100), Timed(Op(Measure, [0], [0], []), 1300, 1000), Idle(0, 2300, 2500), Timed(Op(Gate("x"), [0], [], [0]), 2500, 100), Timed(Op(Measure, [0], [0], []), 2600, 1000), Idle(0, 3600, 3800), Timed(Op(Gate("x"), [0], [], [0]), 3800, 100)], 3900))
  {
    Reset100Alap(c, durs);
    var s := Timing.Schedule([0, 1200, 1300, 2500, 2600, 3800], durs, 3900);
    Reset100AsapPadFrom0(map[], [], c.ops, s.starts, durs);
    assert c.ops[0..] == c.ops && s.starts[0..] == s.starts && durs[0..] == durs;
    var st := PadFrom(PadState(map[], []), c.ops, s.starts, durs, None);
    Reset100AsapPadLatestEnd(s.starts, durs);
    PadOfSchedule(c, s, None, true, st, 3900);
    Reset100AsapPadEndGaps(st.cursor);
    Reset100AlapPaddedOut(st.out, []);
  }

  /** The circuit is well formed. */
  lemma Reset500WellFormed(c: Circuit)
    requires c.numQubits == 1 && c.numClbits == 1 && |c.ops| == 6
    requires c.ops[0] == Op(Measure, [0], [0], [])
    requires c.ops[1] == Op(Gate("x"), [0], [], [0])
    requires c.ops[2] == Op(Measure, [0], [0], [])
    requires c.ops[3] == Op(Gate("x"), [0], [], [0])
    requires c.ops[4] == Op(Measure, [0], [0], [])
    requires c.ops[5] == Op(Gate("x"), [0], [], [0])
    ensures WellFormed(c)
  {
    assert WellFormedOp(c.ops[0], 1, 1);
    assert WellFormedOp(c.ops[1], 1, 1);
    assert WellFormedOp(c.ops[2], 1, 1);
    assert WellFormedOp(c.ops[3], 1, 1);
    assert WellFormedOp(c.ops[4], 1, 1);
    assert WellFormedOp(c.ops[5], 1, 1);
  }

  /** ASAP from instruction 0 on, given when each wire is free. */
  lemma Reset500AsapFrom0(a: Avail, ops: seq<Op>, durs: seq<nat>)
    requires |ops| == 6 && |durs| == 6
    requires ops[0] == Op(Measure, [0], [0], []) && durs[0] == 1000
    requires ops[1] == Op(Gate("x"), [0], [], [0]) && durs[1] == 100
    requires ops[2] == Op(Measure, [0], [0], []) && durs[2] == 1000
    requires ops[3] == Op(Gate("x"), [0], [], [0]) && durs[3] == 100
    requires ops[4] == Op(Measure, [0], [0], []) && durs[4] == 1000
    requires ops[5] == Op(Gate("x"), [0], [], [0]) && durs[5] == 100
    requires Get(a, Qubit(0)) == 0 && Get(a, Clbit(0)) == 0
    ensures var r := Asap.RunFrom(a, ops[0..], durs[0..], IOLatency(0, 500));
      r.starts == [0, 1000] + ([1100, 2100] + ([2200, 3200])) && Span(r.avail, 1, 1) == 3300
  {
    var p0 := Asap.Step(a, ops[0], durs[0], IOLatency(0, 500));
    assert p0.start == 0 && Get(p0.avail, Qubit(0)) == 1000 && Get(p0.avail, Clbit(0)) == 1000 by {
      assert QubitWires([0]) == [Qubit(0)] && MaxOver(a, [Qubit(0)]) == 0 && ClbitWires([0]) == [Clbit(0)] && MaxOver(a, [Clbit(0)]) == 0;
    }
    var p1 := Asap.Step(p0.avail, ops[1], durs[1], IOLatency(0, 500));
    assert p1.start == 1000 && Get(p1.avail, Qubit(0)) == 1100 && Get(p1.avail, Clbit(0)) == 1000 by {
      assert QubitWires([0]) == [Qubit(0)] && MaxOver(p0.avail, [Qubit(0)]) == 1000 && ClbitWires([0]) == [Clbit(0)] && MaxOver(p0.avail, [Clbit(0)]) == 1000;
    }
    Asap.RunFromSteps([a, p0.avail, p1.avail], ops[0..2], durs[0..2], [0, 1000], IOLatency(0, 500));
    Asap.RunFromSplit(a, ops, durs, IOLatency(0, 500), 0, 2);
    Reset500AsapFrom2(p1.avail, ops, durs);
  }

  /** ASAP from instruction 2 on, given when each wire is free. */
  lemma Reset500AsapFrom2(a: Avail, ops: seq<Op>, durs: seq<nat>)
    requires |ops| == 6 && |durs| == 6
    requires ops[2] == Op(Measure, [0], [0], []) && durs[2] == 1000
    requires ops[3] == Op(Gate("x"), [0], [], [0]) && durs[3] == 100
    requires ops[4] == Op(Measure, [0], [0], []) && durs[4] == 1000
    requires ops[5] == Op(Gate("x"), [0], [], [0]) && durs[5] == 100
    requires Get(a, Qubit(0)) == 1100 && Get(a, Clbit(0)) == 1000
    ensures var r := Asap.RunFrom(a, ops[2..], durs[2..], IOLatency(0, 500));
      r.starts == [1100, 2100] + ([2200, 3200]) && Span(r.avail, 1, 1) == 3300
  {
    var p2 := Asap.Step(a, ops[2], durs[2], IOLatency(0, 500));
    assert p2.start == 1100 && Get(p2.avail, Qubit(0)) == 2100 && Get(p2.avail, Clbit(0)) == 2100 by {
      assert QubitWires([0]) == [Qubit(0)] && MaxOver(a, [Qubit(0)]) == 1100 && ClbitWires([0]) == [Clbit(0)] && MaxOver(a, [Clbit(0)]) == 1000;
    }
    var p3 := Asap.Step(p2.avail, ops[3], durs[3], IOLatency(0, 500));
    assert p3.start == 2100 && Get(p3.avail, Qubit(0)) == 2200 && Get(p3.avail, Clbit(0)) == 2100 by {
      assert QubitWires([0]) == [Qubit(0)] && MaxOver(p2.avail, [Qubit(0)]) == 2100 && ClbitWires([0]) == [Clbit(0)] && MaxOver(p2.avail, [Clbit(0)]) == 2100;
    }
    Asap.RunFromSteps([a, p2.avail, p3.avail], ops[2..4], durs[2..4], [1100, 2100], IOLatency(0, 500));
    Asap.RunFromSplit(a, ops, durs, IOLatency(0, 500), 2, 4);
    Reset500AsapFrom4(p3.avail, ops, durs);
  }

  /** ASAP from instruction 4 on, given when each wire is free. */
  lemma Reset500AsapFrom4(a: Avail, ops: seq<Op>, durs: seq<nat>)
    requires |ops| == 6 && |durs| == 6
    requires ops[4] == Op(Measure, [0], [0], []) && durs[4] == 1000
    requires ops[5] == Op(Gate("x"), [0], [], [0]) && durs[5] == 100
    requires Get(a, Qubit(0)) == 2200 && Get(a, Clbit(0)) == 2100
    ensures var r := Asap.RunFrom(a, ops[4..], durs[4..], IOLatency(0, 500));
      r.starts == [2200, 3200] && Span(r.avail, 1, 1) == 3300
  {
    var p4 := Asap.Step(a, ops[4], durs[4], IOLatency(0, 500));
    assert p4.start == 2200 && Get(p4.avail, Qubit(0)) == 3200 && Get(p4.avail, Clbit(0)) == 3200 by {
      assert QubitWires([0]) == [Qubit(0)] && MaxOver(a, [Qubit(0)]) == 2200 && ClbitWires([0]) == [Clbit(0)] && MaxOver(a, [Clbit(0)]) == 2100;
    }
    var p5 := Asap.Step(p4.avail, ops[5], durs[5], IOLatency(0, 500));
    assert p5.start == 3200 && Get(p5.avail, Qubit(0)) == 3300 && Get(p5.avail, Clbit(0)) == 3200 by {
      assert QubitWires([0]) == [Qubit(0)] && MaxOver(p4.avail, [Qubit(0)]) == 3200 && ClbitWires([0]) == [Clbit(0)] && MaxOver(p4.avail, [Clbit(0)]) == 3200;
    }
    Asap.RunFromSteps([a, p4.avail, p5.avail], ops[4..], durs[4..], [2200, 3200], IOLatency(0, 500));
    assert Span(p5.avail, 1, 1) == 3300 by {
      assert AllWires(1, 1) == [Qubit(0), Clbit(0)] && MaxOver(p5.avail, [Clbit(0)]) == 3200 && MaxOver(p5.avail, [Qubit(0), Clbit(0)]) == 3300;
    }
  }

  /** The start times, gathered. */
  lemma Reset500AsapStarts(starts: seq<int>)
    requires starts == [0, 1000] + ([1100, 2100] + ([2200, 3200]))
    ensures starts == [0, 1000, 1100, 2100, 2200, 3200]
  {
  }

  /** ASAP scheduling starts the instructions at [0, 1000, 1100, 2100, 2200, 3200], and the circuit lasts 3300. */
  lemma Reset500Asap(c: Circuit, durs: seq<nat>)
    requires c.numQubits == 1 && c.numClbits == 1 && |c.ops| == 6 && |durs| == 6
    requires c.ops[0] == Op(Measure, [0], [0], []) && durs[0] == 1000
    requires c.ops[1] == Op(Gate("x"), [0], [], [0]) && durs[1] == 100
    requires c.ops[2] == Op(Measure, [0], [0], []) && durs[2] == 1000
    requires c.ops[3] == Op(Gate("x"), [0], [], [0]) && durs[3] == 100
    requires c.ops[4] == Op(Measure, [0], [0], []) && durs[4] == 1000
    requires c.ops[5] == Op(Gate("x"), [0], [], [0]) && durs[5] == 100
    ensures WellFormed(c)
    ensures Asap.Schedule(c, durs, IOLatency(0, 500)) == Timing.Schedule([0, 1000, 1100, 2100, 2200, 3200], durs, 3300)
  {
    Reset500WellFormed(c);
    WellFormedSchedulable(c);
    Asap.RunIsRunFrom(c.ops, durs, IOLatency(0, 500));
    assert c.ops[0..] == c.ops && durs[0..] == durs;
    Reset500AsapFrom0(map[], c.ops, durs);
    Reset500AsapStarts(Asap.Run(c.ops, durs, IOLatency(0, 500)).starts);
  }

  /** ALAP over the instructions before 2, given when each wire is needed by the later ones. */
  lemma Reset500AlapTo2(a: Avail, ops: seq<Op>, durs: seq<nat>)
    requires |ops| == 6 && |durs| == 6
    requires ops[0] == Op(Measure, [0], [0], []) && durs[0] == 1000
    requires ops[1] == Op(Gate("x"), [0], [], [0]) && durs[1] == 100
    requires Get(a, Qubit(0)) == 2200 && Get(a, Clbit(0)) == 1700
    ensures var r := Alap.RunFrom(a, ops[..2], durs[..2], IOLatency(0, 500));
      r.starts == [2300, 2200] && Span(r.avail, 1, 1) == 3300
  {
    var p1 := Alap.Step(a, ops[1], durs[1], IOLatency(0, 500));
    assert p1.start == 2200 && Get(p1.avail, Qubit(0)) == 2300 && Get(p1.avail, Clbit(0)) == 2300 by {
      assert QubitWires([0]) == [Qubit(0)] && MaxOver(a, [Qubit(0)]) == 2200 && ClbitWires([0]) == [Clbit(0)] && MaxOver(a, [Clbit(0)]) == 1700;
    }
    var p0 := Alap.Step(p1.avail, ops[0], durs[0], IOLatency(0, 500));
    assert p0.start == 2300 && Get(p0.avail, Qubit(0)) == 3300 && Get(p0.avail, Clbit(0)) == 2800 by {
      assert QubitWires([0]) == [Qubit(0)] && MaxOver(p1.avail, [Qubit(0)]) == 2300 && ClbitWires([0]) == [Clbit(0)] && MaxOver(p1.avail, [Clbit(0)]) == 2300;
    }
    Alap.RunFromSteps([p0.avail, p1.avail, a], ops[0..2], durs[0..2], [2300, 2200], IOLatency(0, 500));
    Alap.RunFromSplit(a, ops, durs, IOLatency(0, 500), 0, 2);
    assert Span(p0.avail, 1, 1) == 3300 by {
      assert AllWires(1, 1) == [Qubit(0), Clbit(0)] && MaxOver(p0.avail, [Clbit(0)]) == 2800 && MaxOver(p0.avail, [Qubit(0), Clbit(0)]) == 3300;
    }
  }

  /** ALAP over the instructions before 4, given when each wire is needed by the later ones. */
  lemma Reset500AlapTo4(a: Avail, ops: seq<Op>, durs: seq<nat>)
    requires |ops| == 6 && |durs| == 6
    requires ops[0] == Op(Measure, [0], [0], []) && durs[0] == 1000
    requires ops[1] == Op(Gate("x"), [0], [], [0]) && durs[1] == 100
    requires ops[2] == Op(Measure, [0], [0], []) && durs[2] == 1000
    requires ops[3] == Op(Gate("x"), [0], [], [0]) && durs[3] == 100
    requires Get(a, Qubit(0)) == 1100 && Get(a, Clbit(0)) == 600
    ensures var r := Alap.RunFrom(a, ops[..4], durs[..4], IOLatency(0, 500));
      r.starts == ([2300, 2200]) + [1200, 1100] && Span(r.avail, 1, 1) == 3300
  {
    var p3 := Alap.Step(a, ops[3], durs[3], IOLatency(0, 500));
    assert p3.start == 1100 && Get(p3.avail, Qubit(0)) == 1200 && Get(p3.avail, Clbit(0)) == 1200 by {
      assert QubitWires([0]) == [Qubit(0)] && MaxOver(a, [Qubit(0)]) == 1100 && ClbitWires([0]) == [Clbit(0)] && MaxOver(a, [Clbit(0)]) == 600;
    }
    var p2 := Alap.Step(p3.avail, ops[2], durs[2], IOLatency(0, 500));
    assert p2.start == 1200 && Get(p2.avail, Qubit(0)) == 2200 && Get(p2.avail, Clbit(0)) == 1700 by {
      assert QubitWires([0]) == [Qubit(0)] && MaxOver(p3.avail, [Qubit(0)]) == 1200 && ClbitWires([0]) == [Clbit(0)] && MaxOver(p3.avail, [Clbit(0)]) == 1200;
    }
    Alap.RunFromSteps([p2.avail, p3.avail, a], ops[2..4], durs[2..4], [1200, 1100], IOLatency(0, 500));
    Alap.RunFromSplit(a, ops, durs, IOLatency(0, 500), 2, 4);
    Reset500AlapTo2(p2.avail, ops, durs);
  }

  /** ALAP over the instructions before 6, given when each wire is needed by the later ones. */
  lemma Reset500AlapTo6(a: Avail, ops: seq<Op>, durs: seq<nat>)
    requires |ops| == 6 && |durs| == 6
    requires ops[0] == Op(Measure, [0], [0], []) && durs[0] == 1000
    requires ops[1] == Op(Gate("x"), [0], [], [0]) && durs[1] == 100
    requires ops[2] == Op(Measure, [0], [0], []) && durs[2] == 1000
    requires ops[3] == Op(Gate("x"), [0], [], [0]) && durs[3] == 100
    requires ops[4] == Op(Measure, [0], [0], []) && durs[4] == 1000
    requires ops[5] == Op(Gate("x"), [0], [], [0]) && durs[5] == 100
    requires Get(a, Qubit(0)) == 0 && Get(a, Clbit(0)) == 0
    ensures var r := Alap.RunFrom(a, ops[..6], durs[..6], IOLatency(0, 500));
      r.starts == (([2300, 2200]) + [1200, 1100]) + [100, 0] && Span(r.avail, 1, 1) == 3300
  {
    var p5 := Alap.Step(a, ops[5], durs[5], IOLatency(0, 500));
    assert p5.start == 0 && Get(p5.avail, Qubit(0)) == 100 && Get(p5.avail, Clbit(0)) == 100 by {
      assert QubitWires([0]) == [Qubit(0)] && MaxOver(a, [Qubit(0)]) == 0 && ClbitWires([0]) == [Clbit(0)] && MaxOver(a, [Clbit(0)]) == 0;
    }
    var p4 := Alap.Step(p5.avail, ops[4], durs[4], IOLatency(0, 500));
    assert p4.start == 100 && Get(p4.avail, Qubit(0)) == 1100 && Get(p4.avail, Clbit(0)) == 600 by {
      assert QubitWires([0]) == [Qubit(0)] && MaxOver(p5.avail, [Qubit(0)]) == 100 && ClbitWires([0]) == [Clbit(0)] && MaxOver(p5.avail, [Clbit(0)]) == 100;
    }
    Alap.RunFromSteps([p4.avail, p5.avail, a], ops[4..6], durs[4..6], [100, 0], IOLatency(0, 500));
    Alap.RunFromSplit(a, ops, durs, IOLatency(0, 500), 4, 6);
    Reset500AlapTo4(p4.avail, ops, durs);
  }

  /** Start times counted from the beginning. */
  lemma Reset500AlapFlip(ends: seq<int>, durs: seq<nat>)
    requires ends == (([2300, 2200]) + [1200, 1100]) + [100, 0] && |durs| == 6
    requires durs[0] == 1000
    requires durs[1] == 100
    requires durs[2] == 1000
    requires durs[3] == 100
    requires durs[4] == 1000
    requires durs[5] == 100
    ensures Alap.Flip(ends, durs, 3300) == [0, 1000, 1100, 2100, 2200, 3200]
  {
  }
  /** ALAP scheduling starts the instructions at [0, 1000, 1100, 2100, 2200, 3200], and the circuit lasts 3300. */
  lemma Reset500Alap(c: Circuit, durs: seq<nat>)
    requires c.numQubits == 1 && c.numClbits == 1 && |c.ops| == 6 && |durs| == 6
    requires c.ops[0] == Op(Measure, [0], [0], []) && durs[0] == 1000
    requires c.ops[1] == Op(Gate("x"), [0], [], [0]) && durs[1] == 100
    requires c.ops[2] == Op(Measure, [0], [0], []) && durs[2] == 1000
    requires c.ops[3] == Op(Gate("x"), [0], [], [0]) && durs[3] == 100
    requires c.ops[4] == Op(Measure, [0], [0], []) && durs[4] == 1000
    requires c.ops[5] == Op(Gate("x"), [0], [], [0]) && durs[5] == 100
    ensures WellFormed(c)
    ensures Alap.Schedule(c, durs, IOLatency(0, 500)) == Timing.Schedule([0, 1000, 1100, 2100, 2200, 3200], durs, 3300)
  {
    Reset500WellFormed(c);
    WellFormedSchedulable(c);
    Alap.RunIsRunFrom(c.ops, durs, IOLatency(0, 500));
    assert c.ops[..6] == c.ops && durs[..6] == durs;
    Reset500AlapTo6(map[], c.ops, durs);
    Reset500AlapFlip(Alap.Run(c.ops, durs, IOLatency(0, 500)).starts, durs);
  }

  /** Padding from instruction 0 on, given each qubit's cursor. */
  lemma Reset500AsapPadFrom0(cur: Avail, o: seq<Timed>, ops: seq<Op>, starts: seq<int>, durs: seq<nat>)
    requires |ops| == 6 && |starts| == 6 && |durs| == 6
    requires ops[0] == Op(Measure, [0], [0], []) && starts[0] == 0 && durs[0] == 1000
    requires ops[1] == Op(Gate("x"), [0], [], [0]) && starts[1] == 1000 && durs[1] == 100
    requires ops[2] == Op(Measure, [0], [0], []) && starts[2] == 1100 && durs[2] == 1000
    requires ops[3] == Op(Gate("x"), [0], [], [0]) && starts[3] == 2100 && durs[3] == 100
    requires ops[4] == Op(Measure, [0], [0], []) && starts[4] == 2200 && durs[4] == 1000
    requires ops[5] == Op(Gate("x"), [0], [], [0]) && starts[5] == 3200 && durs[5] == 100
    requires Get(cur, Qubit(0)) == 0
    ensures var r := PadFrom(PadState(cur, o), ops[0..], starts[0..], durs[0..], None);
      r.out == (((((o + [Timed(Op(Measure, [0], [0], []), 0, 1000)]) + [Timed(Op(Gate("x"), [0], [], [0]), 1000, 100)]) + [Timed(Op(Measure, [0], [0], []), 1100, 1000)]) + [Timed(Op(Gate("x"), [0], [], [0]), 2100, 100)]) + [Timed(Op(Measure, [0], [0], []), 2200, 1000)]) + [Timed(Op(Gate("x"), [0], [], [0]), 3200, 100)] && Get(r.cursor, Qubit(0)) == 3300
  {
    PadFromAt(PadState(cur, o), ops, starts, durs, None, 0);
    var s0 := PlaceOp(PadState(cur, []), ops[0], starts[0], durs[0], None);
    assert s0.out == [Timed(Op(Measure, [0], [0], []), 0, 1000)] && Get(s0.cursor, Qubit(0)) == 1000;
    PlaceOpOut(cur, o, ops[0], starts[0], durs[0], None);
    Reset500AsapPadFrom1(s0.cursor, o + [Timed(Op(Measure, [0], [0], []), 0, 1000)], ops, starts, durs);
  }

  /** Padding from instruction 1 on, given each qubit's cursor. */
  lemma Reset500AsapPadFrom1(cur: Avail, o: seq<Timed>, ops: seq<Op>, starts: seq<int>, durs: seq<nat>)
    requires |ops| == 6 && |starts| == 6 && |durs| == 6
    requires ops[1] == Op(Gate("x"), [0], [], [0]) && starts[1] == 1000 && durs[1] == 100
    requires ops[2] == Op(Measure, [0], [0], []) && starts[2] == 1100 && durs[2] == 1000
    requires ops[3] == Op(Gate("x"), [0], [], [0]) && starts[3] == 2100 && durs[3] == 100
    requires ops[4] == Op(Measure, [0], [0], []) && starts[4] == 2200 && durs[4] == 1000
    requires ops[5] == Op(Gate("x"), [0], [], [0]) && starts[5] == 3200 && durs[5] == 100
    requires Get(cur, Qubit(0)) == 1000
    ensures var r := PadFrom(PadState(cur, o), ops[1..], starts[1..], durs[1..], None);
      r.out == ((((o + [Timed(Op(Gate("x"), [0], [], [0]), 1000, 100)]) + [Timed(Op(Measure, [0], [0], []), 1100, 1000)]) + [Timed(Op(Gate("x"), [0], [], [0]), 2100, 100)]) + [Timed(Op(Measure, [0], [0], []), 2200, 1000)]) + [Timed(Op(Gate("x"), [0], [], [0]), 3200, 100)] && Get(r.cursor, Qubit(0)) == 3300
  {
    PadFromAt(PadState(cur, o), ops, starts, durs, None, 1);
    var s1 := PlaceOp(PadState(cur, []), ops[1], starts[1], durs[1], None);
    assert s1.out == [Timed(Op(Gate("x"), [0], [], [0]), 1000, 100)] && Get(s1.cursor, Qubit(0)) == 1100;
    PlaceOpOut(cur, o, ops[1], starts[1], durs[1], None);
    Reset500AsapPadFrom2(s1.cursor, o + [Timed(Op(Gate("x"), [0], [], [0]), 1000, 100)], ops, starts, durs);
  }

  /** Padding from instruction 2 on, given each qubit's cursor. */
  lemma Reset500AsapPadFrom2(cur: Avail, o: seq<Timed>, ops: seq<Op>, starts: seq<int>, durs: seq<nat>)
    requires |ops| == 6 && |starts| == 6 && |durs| == 6
    requires ops[2] == Op(Measure, [0], [0], []) && starts[2] == 1100 && durs[2] == 1000
    requires ops[3] == Op(Gate("x"), [0], [], [0]) && starts[3] == 2100 && durs[3] == 100
    requires ops[4] == Op(Measure, [0], [0], []) && starts[4] == 2200 && durs[4] == 1000
    requires ops[5] == Op(Gate("x"), [0], [], [0]) && starts[5] == 3200 && durs[5] == 100
    requires Get(cur, Qubit(0)) == 1100
    ensures var r := PadFrom(PadState(cur, o), ops[2..], starts[2..], durs[2..], None);
      r.out == (((o + [Timed(Op(Measure, [0], [0], []), 1100, 1000)]) + [Timed(Op(Gate("x"), [0], [], [0]), 2100, 100)]) + [Timed(Op(Measure, [0], [0], []), 2200, 1000)]) + [Timed(Op(Gate("x"), [0], [], [0]), 3200, 100)] && Get(r.cursor, Qubit(0)) == 3300
  {
    PadFromAt(PadState(cur, o), ops, starts, durs, None, 2);
    var s2 := PlaceOp(PadState(cur, []), ops[2], starts[2], durs[2], None);
    assert s2.out == [Timed(Op(Measure, [0], [0], []), 1100, 1000)] && Get(s2.cursor, Qubit(0)) == 2100;
    PlaceOpOut(cur, o, ops[2], starts[2], durs[2], None);
    Reset500AsapPadFrom3(s2.cursor, o + [Timed(Op(Measure, [0], [0], []), 1100, 1000)], ops, starts, durs);
  }

  /** Padding from instruction 3 on, given each qubit's cursor. */
  lemma Reset500AsapPadFrom3(cur: Avail, o: seq<Timed>, ops: seq<Op>, starts: seq<int>, durs: seq<nat>)
    requires |ops| == 6 && |starts| == 6 && |durs| == 6
    requires ops[3] == Op(Gate("x"), [0], [], [0]) && starts[3] == 2100 && durs[3] == 100
    requires ops[4] == Op(Measure, [0], [0], []) && starts[4] == 2200 && durs[4] == 1000
    requires ops[5] == Op(Gate("x"), [0], [], [0]) && starts[5] == 3200 && durs[5] == 100
    requires Get(cur, Qubit(0)) == 2100
    ensures var r := PadFrom(PadState(cur, o), ops[3..], starts[3..], durs[3..], None);
      r.out == ((o + [Timed(Op(Gate("x"), [0], [], [0]), 2100, 100)]) + [Timed(Op(Measure, [0], [0], []), 2200, 1000)]) + [Timed(Op(Gate("x"), [0], [], [0]), 3200, 100)] && Get(r.cursor, Qubit(0)) == 3300
  {
    PadFromAt(PadState(cur, o), ops, starts, durs, None, 3);
    var s3 := PlaceOp(PadState(cur, []), ops[3], starts[3], durs[3], None);
    assert s3.out == [Timed(Op(Gate("x"), [0], [], [0]), 2100, 100)] && Get(s3.cursor, Qubit(0)) == 2200;
    PlaceOpOut(cur, o, ops[3], starts[3], durs[3], None);
    Reset500AsapPadFrom4(s3.cursor, o + [Timed(Op(Gate("x"), [0], [], [0]), 2100, 100)], ops, starts, durs);
  }

  /** Padding from instruction 4 on, given each qubit's cursor. */
  lemma Reset500AsapPadFrom4(cur: Avail, o: seq<Timed>, ops: seq<Op>, starts: seq<int>, durs: seq<nat>)
    requires |ops| == 6 && |starts| == 6 && |durs| == 6
    requires ops[4] == Op(Measure, [0], [0], []) && starts[4] == 2200 && durs[4] == 1000
    requires ops[5] == Op(Gate("x"), [0], [], [0]) && starts[5] == 3200 && durs[5] == 100
    requires Get(cur, Qubit(0)) == 2200
    ensures var r := PadFrom(PadState(cur, o), ops[4..], starts[4..], durs[4..], None);
      r.out == (o + [Timed(Op(Measure, [0], [0], []), 2200, 1000)]) + [Timed(Op(Gate("x"), [0], [], [0]), 3200, 100)] && Get(r.cursor, Qubit(0)) == 3300
  {
    PadFromAt(PadState(cur, o), ops, starts, durs, None, 4);
    var s4 := PlaceOp(PadState(cur, []), ops[4], starts[4], durs[4], None);
    assert s4.out == [Timed(Op(Measure, [0], [0], []), 2200, 1000)] && Get(s4.cursor, Qubit(0)) == 3200;
    PlaceOpOut(cur, o, ops[4], starts[4], durs[4], None);
    Reset500AsapPadFrom5(s4.cursor, o + [Timed(Op(Measure, [0], [0], []), 2200, 1000)], ops, starts, durs);
  }

  /** Padding from instruction 5 on, given each qubit's cursor. */
  lemma Reset500AsapPadFrom5(cur: Avail, o: seq<Timed>, ops: seq<Op>, starts: seq<int>, durs: seq<nat>)
    requires |ops| == 6 && |starts| == 6 && |durs| == 6
    requires ops[5] == Op(Gate("x"), [0], [], [0]) && starts[5] == 3200 && durs[5] == 100
    requires Get(cur, Qubit(0)) == 3200
    ensures var r := PadFrom(PadState(cur, o), ops[5..], starts[5..], durs[5..], None);
      r.out == o + [Timed(Op(Gate("x"), [0], [], [0]), 3200, 100)] && Get(r.cursor, Qubit(0)) == 3300
  {
    PadFromAt(PadState(cur, o), ops, starts, durs, None, 5);
    var s5 := PlaceOp(PadState(cur, []), ops[5], starts[5], durs[5], None);
    assert s5.out == [Timed(Op(Gate("x"), [0], [], [0]), 3200, 100)] && Get(s5.cursor, Qubit(0)) == 3300;
    PlaceOpOut(cur, o, ops[5], starts[5], durs[5], None);
    assert ops[6..] == [] && starts[6..] == [] && durs[6..] == [];
  }

  /** The latest end of any instruction. */
  lemma Reset500AsapPadLatestEnd(starts: seq<int>, durs: seq<nat>)
    requires starts == [0, 1000, 1100, 2100, 2200, 3200] && |durs| == 6
    requires durs[0] == 1000
    requires durs[1] == 100
    requires durs[2] == 1000
    requires durs[3] == 100
    requires durs[4] == 1000
    requires durs[5] == 100
    ensures LatestEnd(starts, durs) == 3300
  {
  }

  /** The delays after the last instruction. */
  lemma Reset500AsapPadEndGaps(cur: Avail)
    requires Get(cur, Qubit(0)) == 3300
    ensures EndGaps(cur, 1, 3300, None) == []
  {
    assert true;
  }

  /** The padded instructions in order. */
  lemma Reset500AsapPaddedOut(body: seq<Timed>, tail: seq<Timed>)
    requires body == ((((([] + [Timed(Op(Measure, [0], [0], []), 0, 1000)]) + [Timed(Op(Gate("x"), [0], [], [0]), 1000, 100)]) + [Timed(Op(Measure, [0], [0], []), 1100, 1000)]) + [Timed(Op(Gate("x"), [0], [], [0]), 2100, 100)]) + [Timed(Op(Measure, [0], [0], []), 2200, 1000)]) + [Timed(Op(Gate("x"), [0], [], [0]), 3200, 100)] && tail == []
    ensures body + tail == [Timed(Op(Measure, [0], [0], []), 0, 1000), Timed(Op(Gate("x"), [0], [], [0]), 1000, 100), Timed(Op(Measure, [0], [0], []), 1100, 1000), Timed(Op(Gate("x"), [0], [], [0]), 2100, 100), Timed(Op(Measure, [0], [0], []), 2200, 1000), Timed(Op(Gate("x"), [0], [], [0]), 3200, 100)]
  {
  }

  /** Padding the ASAP schedule gives these instructions, in this order, and the duration 3300. */
  lemma Reset500AsapPadded(c: Circuit, durs: seq<nat>)
    requires c.numQubits == 1 && c.numClbits == 1 && |c.ops| == 6 && |durs| == 6
    requires c.ops[0] == Op(Measure, [0], [0], []) && durs[0] == 1000
    requires c.ops[1] == Op(Gate("x"), [0], [], [0]) && durs[1] == 100
    requires c.ops[2] == Op(Measure, [0], [0], []) && durs[2] == 1000
    requires c.ops[3] == Op(Gate("x"), [0], [], [0]) && durs[3] == 100
    requires c.ops[4] == Op(Measure, [0], [0], []) && durs[4] == 1000
    requires c.ops[5] == Op(Gate("x"), [0], [], [0]) && durs[5] == 100
    ensures Pad(c, Some(StartTimes(Asap.Schedule(c, durs, IOLatency(0, 500)))), durs, None, true) == Success(Padded([Timed(Op(Measure, [0], [0], []), 0, 1000), Timed(Op(Gate("x"), [0], [], [0]), 1000, 100), Timed(Op(Measure, [0], [0], []), 1100, 1000), Timed(Op(Gate("x"), [0], [], [0]), 2100, 100), Timed(Op(Measure, [0], [0], []), 2200, 1000), Timed(Op(Gate("x"), [0], [], [0]), 3200, 100)], 3300))
  {
    Reset500Asap(c, durs);
    var s := Timing.Schedule([0, 1000, 1100, 2100, 2200, 3200], durs, 3300);
    Reset500AsapPadFrom0(map[], [], c.ops, s.starts, durs);
    assert c.ops[0..] == c.ops && s.starts[0..] == s.starts && durs[0..] == durs;
    var st := PadFrom(PadState(map[], []), c.ops, s.starts, durs, None);
    Reset500AsapPadLatestEnd(s.starts, durs);
    PadOfSchedule(c, s, None, true, st, 3300);
    Reset500AsapPadEndGaps(st.cursor);
    Reset500AsapPaddedOut(st.out, []);
  }

  /** The padded instructions in order. */
  lemma Reset500AlapPaddedOut(body: seq<Timed>, tail: seq<Timed>)
    requires body == ((((([] + [Timed(Op(Measure, [0], [0], []), 0, 1000)]) + [Timed(Op(Gate("x"), [0], [], [0]), 1000, 100)]) + [Timed(Op(Measure, [0], [0], []), 1100, 1000)]) + [Timed(Op(Gate("x"), [0], [], [0]), 2100, 100)]) + [Timed(Op(Measure, [0], [0], []), 2200, 1000)]) + [Timed(Op(Gate("x"), [0], [], [0]), 3200, 100)] && tail == []
    ensures body + tail == [Timed(Op(Measure, [0], [0], []), 0, 1000), Timed(Op(Gate("x"), [0], [], [0]), 1000, 100), Timed(Op(Measure, [0], [0], []), 1100, 1000), Timed(Op(Gate("x"), [0], [], [0]), 2100, 100), Timed(Op(Measure, [0], [0], []), 2200, 1000), Timed(Op(Gate("x"), [0], [], [0]), 3200, 100)]
  {
  }

  /** Padding the ALAP schedule gives these instructions, in this order, and the duration 3300. */
  lemma Reset500AlapPadded(c: Circuit, durs: seq<nat>)
    requires c.numQubits == 1 && c.numClbits == 1 && |c.ops| == 6 && |durs| == 6
    requires c.ops[0] == Op(Measure, [0], [0], []) && durs[0] == 1000
    requires c.ops[1] == Op(Gate("x"), [0], [], [0]) && durs[1] == 100
    requires c.ops[2] == Op(Measure, [0], [0], []) && durs[2] == 1000
    requires c.ops[3] == Op(Gate("x"), [0], [], [0]) && durs[3] == 100
    requires c.ops[4] == Op(Measure, [0], [0], []) && durs[4] == 1000
    requires c.ops[5] == Op(Gate("x"), [0], [], [0]) && durs[5] == 100
    ensures Pad(c, Some(StartTimes(Alap.Schedule(c, durs, IOLatency(0, 500)))), durs, None, true) == Success(Padded([Timed(Op(Measure, [0], [0], []), 0, 1000), Timed(Op(Gate("x"), [0], [], [0]), 1000, 100), Timed(Op(Measure, [0], [0], []), 1100, 1000), Timed(Op(Gate("x"), [0], [], [0]), 2100, 100), Timed(Op(Measure, [0], [0], []), 2200, 1000), Timed(Op(Gate("x"), [0], [], [0]), 3200, 100)], 3300))
  {
    Reset500Alap(c, durs);
    var s := Timing.Schedule([0, 1000, 1100, 2100, 2200, 3200], durs, 3300);
    Reset500AsapPadFrom0(map[], [], c.ops, s.starts, durs);
    assert c.ops[0..] == c.ops && s.starts[0..] == s.starts && durs[0..] == durs;
    var st := PadFrom(PadState(map[], []), c.ops, s.starts, durs, None);
    Reset500AsapPadLatestEnd(s.starts, durs);
    PadOfSchedule(c, s, None, true, st, 3300);
    Reset500AsapPadEndGaps(st.cursor);
    Reset500AlapPaddedOut(st.out, []);
  }

  /** The circuit is well formed. */
  lemma Reset1000WellFormed(c: Circuit)
    requires c.numQubits == 1 && c.numClbits == 1 && |c.ops| == 6
    requires c.ops[0] == Op(Measure, [0], [0], [])
    requires c.ops[1] == Op(Gate("x"), [0], [], [0])
    requires c.ops[2] == Op(Measure, [0], [0], [])
    requires c.ops[3] == Op(Gate("x"), [0], [], [0])
    requires c.ops[4] == Op(Measure, [0], [0], [])
    requires c.ops[5] == Op(Gate("x"), [0], [], [0])
    ensures WellFormed(c)
  {
    assert WellFormedOp(c.ops[0], 1, 1);
    assert WellFormedOp(c.ops[1], 1, 1);
    assert WellFormedOp(c.ops[2], 1, 1);
    assert WellFormedOp(c.ops[3], 1, 1);
    assert WellFormedOp(c.ops[4], 1, 1);
    assert WellFormedOp(c.ops[5], 1, 1);
  }

  /** ASAP from instruction 0 on, given when each wire is free. */
  lemma Reset1000AsapFrom0(a: Avail, ops: seq<Op>, durs: seq<nat>)
    requires |ops| == 6 && |durs| == 6
    requires ops[0] == Op(Measure, [0], [0], []) && durs[0] == 1000
    requires ops[1] == Op(Gate("x"), [0], [], [0]) && durs[1] == 100
    requires ops[2] == Op(Measure, [0], [0], []) && durs[2] == 1000
    requires ops[3] == Op(Gate("x"), [0], [], [0]) && durs[3] == 100
    requires ops[4] == Op(Measure, [0], [0], []) && durs[4] == 1000
    requires ops[5] == Op(Gate("x"), [0], [], [0]) && durs[5] == 100
    requires Get(a, Qubit(0)) == 0 && Get(a, Clbit(0)) == 0
    ensures var r := Asap.RunFrom(a, ops[0..], durs[0..], IOLatency(200, 1000));
      r.starts == [0, 1200] + ([1300, 2500] + ([2600, 3800])) && Span(r.avail, 1, 1) == 3900
  {
    var p0 := Asap.Step(a, ops[0], durs[0], IOLatency(200, 1000));
    assert p0.start == 0 && Get(p0.avail, Qubit(0)) == 1000 && Get(p0.avail, Clbit(0)) == 1000 by {
      assert QubitWires([0]) == [Qubit(0)] && MaxOver(a, [Qubit(0)]) == 0 && ClbitWires([0]) == [Clbit(0)] && MaxOver(a, [Clbit(0)]) == 0;
    }
    var p1 := Asap.Step(p0.avail, ops[1], durs[1], IOLatency(200, 1000));
    assert p1.start == 1200 && Get(p1.avail, Qubit(0)) == 1300 && Get(p1.avail, Clbit(0)) == 1200 by {
      assert QubitWires([0]) == [Qubit(0)] && MaxOver(p0.avail, [Qubit(0)]) == 1000 && ClbitWires([0]) == [Clbit(0)] && MaxOver(p0.avail, [Clbit(0)]) == 1000;
    }
    Asap.RunFromSteps([a, p0.avail, p1.avail], ops[0..2], durs[0..2], [0, 1200], IOLatency(200, 1000));
    Asap.RunFromSplit(a, ops, durs, IOLatency(200, 1000), 0, 2);
    Reset1000AsapFrom2(p1.avail, ops, durs);
  }

  /** ASAP from instruction 2 on, given when each wire is free. */
  lemma Reset1000AsapFrom2(a: Avail, ops: seq<Op>, durs: seq<nat>)
    requires |ops| == 6 && |durs| == 6
    requires ops[2] == Op(Measure, [0], [0], []) && durs[2] == 1000
    requires ops[3] == Op(Gate("x"), [0], [], [0]) && durs[3] == 100
    requires ops[4] == Op(Measure, [0], [0], []) && durs[4] == 1000
    requires ops[5] == Op(Gate("x"), [0], [], [0]) && durs[5] == 100
    requires Get(a, Qubit(0)) == 1300 && Get(a, Clbit(0)) == 1200
    ensures var r := Asap.RunFrom(a, ops[2..], durs[2..], IOLatency(200, 1000));
      r.starts == [1300, 2500] + ([2600, 3800]) && Span(r.avail, 1, 1) == 3900
  {
    var p2 := Asap.Step(a, ops[2], durs[2], IOLatency(200, 1000));
    assert p2.start == 1300 && Get(p2.avail, Qubit(0)) == 2300 && Get(p2.avail, Clbit(0)) == 2300 by {
      assert QubitWires([0]) == [Qubit(0)] && MaxOver(a, [Qubit(0)]) == 1300 && ClbitWires([0]) == [Clbit(0)] && MaxOver(a, [Clbit(0)]) == 1200;
    }
    var p3 := Asap.Step(p2.avail, ops[3], durs[3], IOLatency(200, 1000));
    assert p3.start == 2500 && Get(p3.avail, Qubit(0)) == 2600 && Get(p3.avail, Clbit(0)) == 2500 by {
      assert QubitWires([0]) == [Qubit(0)] && MaxOver(p2.avail, [Qubit(0)]) == 2300 && ClbitWires([0]) == [Clbit(0)] && MaxOver(p2.avail, [Clbit(0)]) == 2300;
    }
    Asap.RunFromSteps([a, p2.avail, p3.avail], ops[2..4], durs[2..4], [1300, 2500], IOLatency(200, 1000));
    Asap.RunFromSplit(a, ops, durs, IOLatency(200, 1000), 2, 4);
    Reset1000AsapFrom4(p3.avail, ops, durs);
  }

  /** ASAP from instruction 4 on, given when each wire is free. */
  lemma Reset1000AsapFrom4(a: Avail, ops: seq<Op>, durs: seq<nat>)
    requires |ops| == 6 && |durs| == 6
    requires ops[4] == Op(Measure, [0], [0], []) && durs[4] == 1000
    requires ops[5] == Op(Gate("x"), [0], [], [0]) && durs[5] == 100
    requires Get(a, Qubit(0)) == 2600 && Get(a, Clbit(0)) == 2500
    ensures var r := Asap.RunFrom(a, ops[4..], durs[4..], IOLatency(200, 1000));
      r.starts == [2600, 3800] && Span(r.avail, 1, 1) == 3900
  {
    var p4 := Asap.Step(a, ops[4], durs[4], IOLatency(200, 1000));
    assert p4.start == 2600 && Get(p4.avail, Qubit(0)) == 3600 && Get(p4.avail, Clbit(0)) == 3600 by {
      assert QubitWires([0]) == [Qubit(0)] && MaxOver(a, [Qubit(0)]) == 2600 && ClbitWires([0]) == [Clbit(0)] && MaxOver(a, [Clbit(0)]) == 2500;
    }
    var p5 := Asap.Step(p4.avail, ops[5], durs[5], IOLatency(200, 1000));
    assert p5.start == 3800 && Get(p5.avail, Qubit(0)) == 3900 && Get(p5.avail, Clbit(0)) == 3800 by {
      assert QubitWires([0]) == [Qubit(0)] && MaxOver(p4.avail, [Qubit(0)]) == 3600 && ClbitWires([0]) == [Clbit(0)] && MaxOver(p4.avail, [Clbit(0)]) == 3600;
    }
    Asap.RunFromSteps([a, p4.avail, p5.avail], ops[4..], durs[4..], [2600, 3800], IOLatency(200, 1000));
    assert Span(p5.avail, 1, 1) == 3900 by {
      assert AllWires(1, 1) == [Qubit(0), Clbit(0)] && MaxOver(p5.avail, [Clbit(0)]) == 3800 && MaxOver(p5.avail, [Qubit(0), Clbit(0)]) == 3900;
    }
  }

  /** The start times, gathered. */
  lemma Reset1000AsapStarts(starts: seq<int>)
    requires starts == [0, 1200] + ([1300, 2500] + ([2600, 3800]))
    ensures starts == [0, 1200, 1300, 2500, 2600, 3800]
  {
  }

  /** ASAP scheduling starts the instructions at [0, 1200, 1300, 2500, 2600, 3800], and the circuit lasts 3900. */
  lemma Reset1000Asap(c: Circuit, durs: seq<nat>)
    requires c.numQubits == 1 && c.numClbits == 1 && |c.ops| == 6 && |durs| == 6
    requires c.ops[0] == Op(Measure, [0], [0], []) && durs[0] == 1000
    requires c.ops[1] == Op(Gate("x"), [0], [], [0]) && durs[1] == 100
    requires c.ops[2] == Op(Measure, [0], [0], []) && durs[2] == 1000
    requires c.ops[3] == Op(Gate("x"), [0], [], [0]) && durs[3] == 100
    requires c.ops[4] == Op(Measure, [0], [0], []) && durs[4] == 1000
    requires c.ops[5] == Op(Gate("x"), [0], [], [0]) && durs[5] == 100
    ensures WellFormed(c)
    ensures Asap.Schedule(c, durs, IOLatency(200, 1000)) == Timing.Schedule([0, 1200, 1300, 2500, 2600, 3800], durs, 3900)
  {
    Reset1000WellFormed(c);
    WellFormedSchedulable(c);
    Asap.RunIsRunFrom(c.ops, durs, IOLatency(200, 1000));
    assert c.ops[0..] == c.ops && durs[0..] == durs;
    Reset1000AsapFrom0(map[], c.ops, durs);
    Reset1000AsapStarts(Asap.Run(c.ops, durs, IOLatency(200, 1000)).starts);
  }

  /** ALAP over the instructions before 2, given when each wire is needed by the later ones. */
  lemma Reset1000AlapTo2(a: Avail, ops: seq<Op>, durs: seq<nat>)
    requires |ops| == 6 && |durs| == 6
    requires ops[0] == Op(Measure, [0], [0], []) && durs[0] == 1000
    requires ops[1] == Op(Gate("x"), [0], [], [0]) && durs[1] == 100
    requires Get(a, Qubit(0)) == 2600 && Get(a, Clbit(0)) == 1600
    ensures var r := Alap.RunFrom(a, ops[..2], durs[..2], IOLatency(200, 1000));
      r.starts == [2900, 2600] && Span(r.avail, 1, 1) == 3900
  {
    var p1 := Alap.Step(a, ops[1], durs[1], IOLatency(200, 1000));
    assert p1.start == 2600 && Get(p1.avail, Qubit(0)) == 2700 && Get(p1.avail, Clbit(0)) == 2900 by {
      assert QubitWires([0]) == [Qubit(0)] && MaxOver(a, [Qubit(0)]) == 2600 && ClbitWires([0]) == [Clbit(0)] && MaxOver(a, [Clbit(0)]) == 1600;
    }
    var p0 := Alap.Step(p1.avail, ops[0], durs[0], IOLatency(200, 1000));
    assert p0.start == 2900 && Get(p0.avail, Qubit(0)) == 3900 && Get(p0.avail, Clbit(0)) == 2900 by {
      assert QubitWires([0]) == [Qubit(0)] && MaxOver(p1.avail, [Qubit(0)]) == 2700 && ClbitWires([0]) == [Clbit(0)] && MaxOver(p1.avail, [Clbit(0)]) == 2900;
    }
    Alap.RunFromSteps([p0.avail, p1.avail, a], ops[0..2], durs[0..2], [2900, 2600], IOLatency(200, 1000));
    Alap.RunFromSplit(a, ops, durs, IOLatency(200, 1000), 0, 2);
    assert Span(p0.avail, 1, 1) == 3900 by {
      assert AllWires(1, 1) == [Qubit(0), Clbit(0)] && MaxOver(p0.avail, [Clbit(0)]) == 2900 && MaxOver(p0.avail, [Qubit(0), Clbit(0)]) == 3900;
    }
  }

  /** ALAP over the instructions before 4, given when each wire is needed by the later ones. */
  lemma Reset1000AlapTo4(a: Avail, ops: seq<Op>, durs: seq<nat>)
    requires |ops| == 6 && |durs| == 6
    requires ops[0] == Op(Measure, [0], [0], []) && durs[0] == 1000
    requires ops[1] == Op(Gate("x"), [0], [], [0]) && durs[1] == 100
    requires ops[2] == Op(Measure, [0], [0], []) && durs[2] == 1000
    requires ops[3] == Op(Gate("x"), [0], [], [0]) && durs[3] == 100
    requires Get(a, Qubit(0)) == 1300 && Get(a, Clbit(0)) == 300
    ensures var r := Alap.RunFrom(a, ops[..4], durs[..4], IOLatency(200, 1000));
      r.starts == ([2900, 2600]) + [1600, 1300] && Span(r.avail, 1, 1) == 3900
  {
    var p3 := Alap.Step(a, ops[3], durs[3], IOLatency(200, 1000));
    assert p3.start == 1300 && Get(p3.avail, Qubit(0)) == 1400 && Get(p3.avail, Clbit(0)) == 1600 by {
      assert QubitWires([0]) == [Qubit(0)] && MaxOver(a, [Qubit(0)]) == 1300 && ClbitWires([0]) == [Clbit(0)] && MaxOver(a, [Clbit(0)]) == 300;
    }
    var p2 := Alap.Step(p3.avail, ops[2], durs[2], IOLatency(200, 1000));
    assert p2.start == 1600 && Get(p2.avail, Qubit(0)) == 2600 && Get(p2.avail, Clbit(0)) == 1600 by {
      assert QubitWires([0]) == [Qubit(0)] && MaxOver(p3.avail, [Qubit(0)]) == 1400 && ClbitWires([0]) == [Clbit(0)] && MaxOver(p3.avail, [Clbit(0)]) == 1600;
    }
    Alap.RunFromSteps([p2.avail, p3.avail, a], ops[2..4], durs[2..4], [1600, 1300], IOLatency(200, 1000));
    Alap.RunFromSplit(a, ops, durs, IOLatency(200, 1000), 2, 4);
    Reset1000AlapTo2(p2.avail, ops, durs);
  }

  /** ALAP over the instructions before 6, given when each wire is needed by the later ones. */
  lemma Reset1000AlapTo6(a: Avail, ops: seq<Op>, durs: seq<nat>)
    requires |ops| == 6 && |durs| == 6
    requires ops[0] == Op(Measure, [0], [0], []) && durs[0] == 1000
    requires ops[1] == Op(Gate("x"), [0], [], [0]) && durs[1] == 100
    requires ops[2] == Op(Measure, [0], [0], []) && durs[2] == 1000
    requires ops[3] == Op(Gate("x"), [0], [], [0]) && durs[3] == 100
    requires ops[4] == Op(Measure, [0], [0], []) && durs[4] == 1000
    requires ops[5] == Op(Gate("x"), [0], [], [0]) && durs[5] == 100
    requires Get(a, Qubit(0)) == 0 && Get(a, Clbit(0)) == 0
    ensures var r := Alap.RunFrom(a, ops[..6], durs[..6], IOLatency(200, 1000));
      r.starts == (([2900, 2600]) + [1600, 1300]) + [300, 0] && Span(r.avail, 1, 1) == 3900
  {
    var p5 := Alap.Step(a, ops[5], durs[5], IOLatency(200, 1000));
    assert p5.start == 0 && Get(p5.avail, Qubit(0)) == 100 && Get(p5.avail, Clbit(0)) == 300 by {
      assert QubitWires([0]) == [Qubit(0)] && MaxOver(a, [Qubit(0)]) == 0 && ClbitWires([0]) == [Clbit(0)] && MaxOver(a, [Clbit(0)]) == 0;
    }
    var p4 := Alap.Step(p5.avail, ops[4], durs[4], IOLatency(200, 1000));
    assert p4.start == 300 && Get(p4.avail, Qubit(0)) == 1300 && Get(p4.avail, Clbit(0)) == 300 by {
      assert QubitWires([0]) == [Qubit(0)] && MaxOver(p5.avail, [Qubit(0)]) == 100 && ClbitWires([0]) == [Clbit(0)] && MaxOver(p5.avail, [Clbit(0)]) == 300;
    }
    Alap.RunFromSteps([p4.avail, p5.avail, a], ops[4..6], durs[4..6], [300, 0], IOLatency(200, 1000));
    Alap.RunFromSplit(a, ops, durs, IOLatency(200, 1000), 4, 6);
    Reset1000AlapTo4(p4.avail, ops, durs);
  }

  /** Start times counted from the beginning. */
  lemma Reset1000AlapFlip(ends: seq<int>, durs: seq<nat>)
    requires ends == (([2900, 2600]) + [1600, 1300]) + [300, 0] && |durs| == 6
    requires durs[0] == 1000
    requires durs[1] == 100
    requires durs[2] == 1000
    requires durs[3] == 100
    requires durs[4] == 1000
    requires durs[5] == 100
    ensures Alap.Flip(ends, durs, 3900) == [0, 1200, 1300, 2500, 2600, 3800]
  {
  }
  /** ALAP scheduling starts the instructions at [0, 1200, 1300, 2500, 2600, 3800], and the circuit lasts 3900. */
  lemma Reset1000Alap(c: Circuit, durs: seq<nat>)
    requires c.numQubits == 1 && c.numClbits == 1 && |c.ops| == 6 && |durs| == 6
    requires c.ops[0] == Op(Measure, [0], [0], []) && durs[0] == 1000
    requires c.ops[1] == Op(Gate("x"), [0], [], [0]) && durs[1] == 100
    requires c.ops[2] == Op(Measure, [0], [0], []) && durs[2] == 1000
    requires c.ops[3] == Op(Gate("x"), [0], [], [0]) && durs[3] == 100
    requires c.ops[4] == Op(Measure, [0], [0], []) && durs[4] == 1000
    requires c.ops[5] == Op(Gate("x"), [0], [], [0]) && durs[5] == 100
    ensures WellFormed(c)
    ensures Alap.Schedule(c, durs, IOLatency(200, 1000)) == Timing.Schedule([0, 1200, 1300, 2500, 2600, 3800], durs, 3900)
  {
    Reset1000WellFormed(c);
    WellFormedSchedulable(c);
    Alap.RunIsRunFrom(c.ops, durs, IOLatency(200, 1000));
    assert c.ops[..6] == c.ops && durs[..6] == durs;
    Reset1000AlapTo6(map[], c.ops, durs);
    Reset1000AlapFlip(Alap.Run(c.ops, durs, IOLatency(200, 1000)).starts, durs);
  }

  /** Padding from instruction 0 on, given each qubit's cursor. */
  lemma Reset1000AsapPadFrom0(cur: Avail, o: seq<Timed>, ops: seq<Op>, starts: seq<int>, durs: seq<nat>)
    requires |ops| == 6 && |starts| == 6 && |durs| == 6
    requires ops[0] == Op(Measure, [0], [0], []) && starts[0] == 0 && durs[0] == 1000
    requires ops[1] == Op(Gate("x"), [0], [], [0]) && starts[1] == 1200 && durs[1] == 100
    requires ops[2] == Op(Measure, [0], [0], []) && starts[2] == 1300 && durs[2] == 1000
    requires ops[3] == Op(Gate("x"), [0], [], [0]) && starts[3] == 2500 && durs[3] == 100
    requires ops[4] == Op(Measure, [0], [0], []) && starts[4] == 2600 && durs[4] == 1000
    requires ops[5] == Op(Gate("x"), [0], [], [0]) && starts[5] == 3800 && durs[5] == 100
    requires Get(cur, Qubit(0)) == 0
    ensures var r := PadFrom(PadState(cur, o), ops[0..], starts[0..], durs[0..], None);
      r.out == (((((o + [Timed(Op(Measure, [0], [0], []), 0, 1000)]) + [Idle(0, 1000, 1200), Timed(Op(Gate("x"), [0], [], [0]), 1200, 100)]) + [Timed(Op(Measure, [0], [0], []), 1300, 1000)]) + [Idle(0, 2300, 2500), Timed(Op(Gate("x"), [0], [], [0]), 2500, 100)]) + [Timed(Op(Measure, [0], [0], []), 2600, 1000)]) + [Idle(0, 3600, 3800), Timed(Op(Gate("x"), [0], [], [0]), 3800, 100)] && Get(r.cursor, Qubit(0)) == 3900
  {
    PadFromAt(PadState(cur, o), ops, starts, durs, None, 0);
    var s0 := PlaceOp(PadState(cur, []), ops[0], starts[0], durs[0], None);
    assert s0.out == [Timed(Op(Measure, [0], [0], []), 0, 1000)] && Get(s0.cursor, Qubit(0)) == 1000;
    PlaceOpOut(cur, o, ops[0], starts[0], durs[0], None);
    Reset1000AsapPadFrom1(s0.cursor, o + [Timed(Op(Measure, [0], [0], []), 0, 1000)], ops, starts, durs);
  }

  /** Padding from instruction 1 on, given each qubit's cursor. */
  lemma Reset1000AsapPadFrom1(cur: Avail, o: seq<Timed>, ops: seq<Op>, starts: seq<int>, durs: seq<nat>)
    requires |ops| == 6 && |starts| == 6 && |durs| == 6
    requires ops[1] == Op(Gate("x"), [0], [], [0]) && starts[1] == 1200 && durs[1] == 100
    requires ops[2] == Op(Measure, [0], [0], []) && starts[2] == 1300 && durs[2] == 1000
    requires ops[3] == Op(Gate("x"), [0], [], [0]) && starts[3] == 2500 && durs[3] == 100
    requires ops[4] == Op(Measure, [0], [0], []) && starts[4] == 2600 && durs[4] == 1000
    requires ops[5] == Op(Gate("x"), [0], [], [0]) && starts[5] == 3800 && durs[5] == 100
    requires Get(cur, Qubit(0)) == 1000
    ensures var r := PadFrom(PadState(cur, o), ops[1..], starts[1..], durs[1..], None);
      r.out == ((((o + [Idle(0, 1000, 1200), Timed(Op(Gate("x"), [0], [], [0]), 1200, 100)]) + [Timed(Op(Measure, [0], [0], []), 1300, 1000)]) + [Idle(0, 2300, 2500), Timed(Op(Gate("x"), [0], [], [0]), 2500, 100)]) + [Timed(Op(Measure, [0], [0], []), 2600, 1000)]) + [Idle(0, 3600, 3800), Timed(Op(Gate("x"), [0], [], [0]), 3800, 100)] && Get(r.cursor, Qubit(0)) == 3900
  {
    PadFromAt(PadState(cur, o), ops, starts, durs, None, 1);
    var s1 := PlaceOp(PadState(cur, []), ops[1], starts[1], durs[1], None);
    assert s1.out == [Idle(0, 1000, 1200), Timed(Op(Gate("x"), [0], [], [0]), 1200, 100)] && Get(s1.cursor, Qubit(0)) == 1300;
    PlaceOpOut(cur, o, ops[1], starts[1], durs[1], None);
    Reset1000AsapPadFrom2(s1.cursor, o + [Idle(0, 1000, 1200), Timed(Op(Gate("x"), [0], [], [0]), 1200, 100)], ops, starts, durs);
  }

  /** Padding from instruction 2 on, given each qubit's cursor. */
  lemma Reset1000AsapPadFrom2(cur: Avail, o: seq<Timed>, ops: seq<Op>, starts: seq<int>, durs: seq<nat>)
    requires |ops| == 6 && |starts| == 6 && |durs| == 6
    requires ops[2] == Op(Measure, [0], [0], []) && starts[2] == 1300 && durs[2] == 1000
    requires ops[3] == Op(Gate("x"), [0], [], [0]) && starts[3] == 2500 && durs[3] == 100
    requires ops[4] == Op(Measure, [0], [0], []) && starts[4] == 2600 && durs[4] == 1000
    requires ops[5] == Op(Gate("x"), [0], [], [0]) && starts[5] == 3800 && durs[5] == 100
    requires Get(cur, Qubit(0)) == 1300
    ensures var r := PadFrom(PadState(cur, o), ops[2..], starts[2..], durs[2..], None);
      r.out == (((o + [Timed(Op(Measure, [0], [0], []), 1300, 1000)]) + [Idle(0, 2300, 2500), Timed(Op(Gate("x"), [0], [], [0]), 2500, 100)]) + [Timed(Op(Measure, [0], [0], []), 2600, 1000)]) + [Idle(0, 3600, 3800), Timed(Op(Gate("x"), [0], [], [0]), 3800, 100)] && Get(r.cursor, Qubit(0)) == 3900
  {
    PadFromAt(PadState(cur, o), ops, starts, durs, None, 2);
    var s2 := PlaceOp(PadState(cur, []), ops[2], starts[2], durs[2], None);
    assert s2.out == [Timed(Op(Measure, [0], [0], []), 1300, 1000)] && Get(s2.cursor, Qubit(0)) == 2300;
    PlaceOpOut(cur, o, ops[2], starts[2], durs[2], None);
    Reset1000AsapPadFrom3(s2.cursor, o + [Timed(Op(Measure, [0], [0], []), 1300, 1000)], ops, starts, durs);
  }

  /** Padding from instruction 3 on, given each qubit's cursor. */
  lemma Reset1000AsapPadFrom3(cur: Avail, o: seq<Timed>, ops: seq<Op>, starts: seq<int>, durs: seq<nat>)
    requires |ops| == 6 && |starts| == 6 && |durs| == 6
    requires ops[3] == Op(Gate("x"), [0], [], [0]) && starts[3] == 2500 && durs[3] == 100
    requires ops[4] == Op(Measure, [0], [0], []) && starts[4] == 2600 && durs[4] == 1000
    requires ops[5] == Op(Gate("x"), [0], [], [0]) && starts[5] == 3800 && durs[5] == 100
    requires Get(cur, Qubit(0)) == 2300
    ensures var r := PadFrom(PadState(cur, o), ops[3..], starts[3..], durs[3..], None);
      r.out == ((o + [Idle(0, 2300, 2500), Timed(Op(Gate("x"), [0], [], [0]), 2500, 100)]) + [Timed(Op(Measure, [0], [0], []), 2600, 1000)]) + [Idle(0, 3600, 3800), Timed(Op(Gate("x"), [0], [], [0]), 3800, 100)] && Get(r.cursor, Qubit(0)) == 3900
  {
    PadFromAt(PadState(cur, o), ops, starts, durs, None, 3);
    var s3 := PlaceOp(PadState(cur, []), ops[3], starts[3], durs[3], None);
    assert s3.out == [Idle(0, 2300, 2500), Timed(Op(Gate("x"), [0], [], [0]), 2500, 100)] && Get(s3.cursor, Qubit(0)) == 2600;
    PlaceOpOut(cur, o, ops[3], starts[3], durs[3], None);
    Reset1000AsapPadFrom4(s3.cursor, o + [Idle(0, 2300, 2500), Timed(Op(Gate("x"), [0], [], [0]), 2500, 100)], ops, starts, durs);
  }

  /** Padding from instruction 4 on, given each qubit's cursor. */
  lemma Reset1000AsapPadFrom4(cur: Avail, o: seq<Timed>, ops: seq<Op>, starts: seq<int>, durs: seq<nat>)
    requires |ops| == 6 && |starts| == 6 && |durs| == 6
    requires ops[4] == Op(Measure, [0], [0], []) && starts[4] == 2600 && durs[4] == 1000
    requires ops[5] == Op(Gate("x"), [0], [], [0]) && starts[5] == 3800 && durs[5] == 100
    requires Get(cur, Qubit(0)) == 2600
    ensures var r := PadFrom(PadState(cur, o), ops[4..], starts[4..], durs[4..], None);
      r.out == (o + [Timed(Op(Measure, [0], [0], []), 2600, 1000)]) + [Idle(0, 3600, 3800), Timed(Op(Gate("x"), [0], [], [0]), 3800, 100)] && Get(r.cursor, Qubit(0)) == 3900
  {
    PadFromAt(PadState(cur, o), ops, starts, durs, None, 4);
    var s4 := PlaceOp(PadState(cur, []), ops[4], starts[4], durs[4], None);
    assert s4.out == [Timed(Op(Measure, [0], [0], []), 2600, 1000)] && Get(s4.cursor, Qubit(0)) == 3600;
    PlaceOpOut(cur, o, ops[4], starts[4], durs[4], None);
    Reset1000AsapPadFrom5(s4.cursor, o + [Timed(Op(Measure, [0], [0], []), 2600, 1000)], ops, starts, durs);
  }

  /** Padding from instruction 5 on, given each qubit's cursor. */
  lemma Reset1000AsapPadFrom5(cur: Avail, o: seq<Timed>, ops: seq<Op>, starts: seq<int>, durs: seq<nat>)
    requires |ops| == 6 && |starts| == 6 && |durs| == 6
    requires ops[5] == Op(Gate("x"), [0], [], [0]) && starts[5] == 3800 && durs[5] == 100
    requires Get(cur, Qubit(0)) == 3600
    ensures var r := PadFrom(PadState(cur, o), ops[5..], starts[5..], durs[5..], None);
      r.out == o + [Idle(0, 3600, 3800), Timed(Op(Gate("x"), [0], [], [0]), 3800, 100)] && Get(r.cursor, Qubit(0)) == 3900
  {
    PadFromAt(PadState(cur, o), ops, starts, durs, None, 5);
    var s5 := PlaceOp(PadState(cur, []), ops[5], starts[5], durs[5], None);
    assert s5.out == [Idle(0, 3600, 3800), Timed(Op(Gate("x"), [0], [], [0]), 3800, 100)] && Get(s5.cursor, Qubit(0)) == 3900;
    PlaceOpOut(cur, o, ops[5], starts[5], durs[5], None);
    assert ops[6..] == [] && starts[6..] == [] && durs[6..] == [];
  }

  /** The latest end of any instruction. */
  lemma Reset1000AsapPadLatestEnd(starts: seq<int>, durs: seq<nat>)
    requires starts == [0, 1200, 1300, 2500, 2600, 3800] && |durs| == 6
    requires durs[0] == 1000
    requires durs[1] == 100
    requires durs[2] == 1000
    requires durs[3] == 100
    requires durs[4] == 1000
    requires durs[5] == 100
    ensures LatestEnd(starts, durs) == 3900
  {
  }

  /** The delays after the last instruction. */
  lemma Reset1000AsapPadEndGaps(cur: Avail)
    requires Get(cur, Qubit(0)) == 3900
    ensures EndGaps(cur, 1, 3900, None) == []
  {
    assert true;
  }

  /** The padded instructions in order. */
  lemma Reset1000AsapPaddedOut(body: seq<Timed>, tail: seq<Timed>)
    requires body == ((((([] + [Timed(Op(Measure, [0], [0], []), 0, 1000)]) + [Idle(0, 1000, 1200), Timed(Op(Gate("x"), [0], [], [0]), 1200, 100)]) + [Timed(Op(Measure, [0], [0], []), 1300, 1000)]) + [Idle(0, 2300, 2500), Timed(Op(Gate("x"), [0], [], [0]), 2500, 100)]) + [Timed(Op(Measure, [0], [0], []), 2600, 1000)]) + [Idle(0, 3600, 3800), Timed(Op(Gate("x"), [0], [], [0]), 3800, 100)] && tail == []
    ensures body + tail == [Timed(Op(Measure, [0], [0], []), 0, 1000), Idle(0, 1000, 1200), Timed(Op(Gate("x"), [0], [], [0]), 1200, 100), Timed(Op(Measure, [0], [0], []), 1300, 1000), Idle(0, 2300, 2500), Timed(Op(Gate("x"), [0], [], [0]), 2500, 100), Timed(Op(Measure, [0], [0], []), 2600, 1000), Idle(0, 3600, 3800), Timed(Op(Gate("x"), [0], [], [0]), 3800, 100)]
  {
  }

  /** Padding the ASAP schedule gives these instructions, in this order, and the duration 3900. */
  lemma Reset1000AsapPadded(c: Circuit, durs: seq<nat>)
    requires c.numQubits == 1 && c.numClbits == 1 && |c.ops| == 6 && |durs| == 6
    requires c.ops[0] == Op(Measure, [0], [0], []) && durs[0] == 1000
    requires c.ops[1] == Op(Gate("x"), [0], [], [0]) && durs[1] == 100
    requires c.ops[2] == Op(Measure, [0], [0], []) && durs[2] == 1000
    requires c.ops[3] == Op(Gate("x"), [0], [], [0]) && durs[3] == 100
    requires c.ops[4] == Op(Measure, [0], [0], []) && durs[4] == 1000
    requires c.ops[5] == Op(Gate("x"), [0], [], [0]) && durs[5] == 100
    ensures Pad(c, Some(StartTimes(Asap.Schedule(c, durs, IOLatency(200, 1000)))), durs, None, true) == Success(Padded([Timed(Op(Measure, [0], [0], []), 0, 1000), Idle(0, 1000, 1200), Timed(Op(Gate("x"), [0], [], [0]), 1200, 100), Timed(Op(Measure, [0], [0], []), 1300, 1000), Idle(0, 2300, 2500), Timed(Op(Gate("x"), [0], [], [0]), 2500, 100), Timed(Op(Measure, [0], [0], []), 2600, 1000), Idle(0, 3600, 3800), Timed(Op(Gate("x"), [0], [], [0]), 3800, 100)], 3900))
  {
    Reset1000Asap(c, durs);
    var s := Timing.Schedule([0, 1200, 1300, 2500, 2600, 3800], durs, 3900);
    Reset1000AsapPadFrom0(map[], [], c.ops, s.starts, durs);
    assert c.ops[0..] == c.ops && s.starts[0..] == s.starts && durs[0..] == durs;
    var st := PadFrom(PadState(map[], []), c.ops, s.starts, durs, None);
    Reset1000AsapPadLatestEnd(s.starts, durs);
    PadOfSchedule(c, s, None, true, st, 3900);
    Reset1000AsapPadEndGaps(st.cursor);
    Reset1000AsapPaddedOut(st.out, []);
  }

  /** The padded instructions in order. */
  lemma Reset1000AlapPaddedOut(body: seq<Timed>, tail: seq<Timed>)
    requires body == ((((([] + [Timed(Op(Measure, [0], [0], []), 0, 1000)]) + [Idle(0, 1000, 1200), Timed(Op(Gate("x"), [0], [], [0]), 1200, 100)]) + [Timed(Op(Measure, [0], [0], []), 1300, 1000)]) + [Idle(0, 2300, 2500), Timed(Op(Gate("x"), [0], [], [0]), 2500, 100)]) + [Timed(Op(Measure, [0], [0], []), 2600, 1000)]) + [Idle(0, 3600, 3800), Timed(Op(Gate("x"), [0], [], [0]), 3800, 100)] && tail == []
    ensures body + tail == [Timed(Op(Measure, [0], [0], []), 0, 1000), Idle(0, 1000, 1200), Timed(Op(Gate("x"), [0], [], [0]), 1200, 100), Timed(Op(Measure, [0], [0], []), 1300, 1000), Idle(0, 2300, 2500), Timed(Op(Gate("x"), [0], [], [0]), 2500, 100), Timed(Op(Measure, [0], [0], []), 2600, 1000), Idle(0, 3600, 3800), Timed(Op(Gate("x"), [0], [], [0]), 3800, 100)]
  {
  }

  /** Padding the ALAP schedule gives these instructions, in this order, and the duration 3900. */
  lemma Reset1000AlapPadded(c: Circuit, durs: seq<nat>)
    requires c.numQubits == 1 && c.numClbits == 1 && |c.ops| == 6 && |durs| == 6
    requires c.ops[0] == Op(Measure, [0], [0], []) && durs[0] == 1000
    requires c.ops[1] == Op(Gate("x"), [0], [], [0]) && durs[1] == 100
    requires c.ops[2] == Op(Measure, [0], [0], []) && durs[2] == 1000
    requires c.ops[3] == Op(Gate("x"), [0], [], [0]) && durs[3] == 100
    requires c.ops[4] == Op(Measure, [0], [0], []) && durs[4] == 1000
    requires c.ops[5] == Op(Gate("x"), [0], [], [0]) && durs[5] == 100
    ensures Pad(c, Some(StartTimes(Alap.Schedule(c, durs, IOLatency(200, 1000)))), durs, None, true) == Success(Padded([Timed(Op(Measure, [0], [0], []), 0, 1000), Idle(0, 1000, 1200), Timed(Op(Gate("x"), [0], [], [0]), 1200, 100), Timed(Op(Measure, [0], [0], []), 1300, 1000), Idle(0, 2300, 2500), Timed(Op(Gate("x"), [0], [], [0]), 2500, 100), Timed(Op(Measure, [0], [0], []), 2600, 1000), Idle(0, 3600, 3800), Timed(Op(Gate("x"), [0], [], [0]), 3800, 100)], 3900))
  {
    Reset1000Alap(c, durs);
    var s := Timing.Schedule([0, 1200, 1300, 2500, 2600, 3800], durs, 3900);
    Reset1000AsapPadFrom0(map[], [], c.ops, s.starts, durs);
    assert c.ops[0..] == c.ops && s.starts[0..] == s.starts && durs[0..] == durs;
    var st := PadFrom(PadState(map[], []), c.ops, s.starts, durs, None);
    Reset1000AsapPadLatestEnd(s.starts, durs);
    PadOfSchedule(c, s, None, true, st, 3900);
    Reset1000AsapPadEndGaps(st.cursor);
    Reset1000AlapPaddedOut(st.out, []);
  }

  /** The duration of each instruction, as the scheduling passes look it up. */
  lemma ResetDurations(c: Circuit)
    requires |c.ops| == 6
    requires c.ops[0] == Op(Measure, [0], [0], [])
    requires c.ops[1] == Op(Gate("x"), [0], [], [0])
    requires c.ops[2] == Op(Measure, [0], [0], [])
    requires c.ops[3] == Op(Gate("x"), [0], [], [0])
    requires c.ops[4] == Op(Measure, [0], [0], [])
    requires c.ops[5] == Op(Gate("x"), [0], [], [0])
    ensures AllResolved(map[], FromEntries([Entry("x", None, 100), Entry("measure", None, 1000)]), c.ops) && DurationsOf(map[], FromEntries([Entry("x", None, 100), Entry("measure", None, 1000)]), c.ops) == [1000, 100, 1000, 100, 1000, 100]
  {
    var t := FromEntries([Entry("x", None, 100), Entry("measure", None, 1000)]);
    assert NodeDuration(map[], t, c.ops[0]) == Some(1000);
    assert NodeDuration(map[], t, c.ops[1]) == Some(100);
    assert NodeDuration(map[], t, c.ops[2]) == Some(1000);
    assert NodeDuration(map[], t, c.ops[3]) == Some(100);
    assert NodeDuration(map[], t, c.ops[4]) == Some(1000);
    assert NodeDuration(map[], t, c.ops[5]) == Some(100);
    DurationsAre(map[], t, c.ops, [1000, 100, 1000, 100, 1000, 100]);
  }
}
