/** A circuit mixing delays, a barrier, measures and conditional gates, with a
    write latency of 100 and a conditional latency of 200: both modes end at 3100. */
module RandomCircuit {
  import opened Circuits
  import opened Timing
  import opened Durations
  import opened Constraints
  import opened Padding
  import Asap
  import Alap

  /** The circuit is well formed. */
  lemma RandomWellFormed(c: Circuit)
    requires c.numQubits == 3 && c.numClbits == 1 && |c.ops| == 11
    requires c.ops[0] == Op(Delay(100), [0], [], [])
    requires c.ops[1] == Op(Gate("x"), [0], [], [0])
    requires c.ops[2] == Op(Barrier, [0, 1, 2], [], [])
    requires c.ops[3] == Op(Measure, [2], [0], [])
    requires c.ops[4] == Op(Gate("x"), [1], [], [0])
    requires c.ops[5] == Op(Gate("x"), [0], [], [0])
    requires c.ops[6] == Op(Delay(300), [0], [], [])
    requires c.ops[7] == Op(Gate("cx"), [1, 2], [], [])
    requires c.ops[8] == Op(Gate("x"), [0], [], [])
    requires c.ops[9] == Op(Gate("cx"), [0, 1], [], [0])
    requires c.ops[10] == Op(Measure, [2], [0], [])
    ensures WellFormed(c)
  {
    assert WellFormedOp(c.ops[0], 3, 1);
    assert WellFormedOp(c.ops[1], 3, 1);
    assert WellFormedOp(c.ops[2], 3, 1);
    assert WellFormedOp(c.ops[3], 3, 1);
    assert WellFormedOp(c.ops[4], 3, 1);
    assert WellFormedOp(c.ops[5], 3, 1);
    assert WellFormedOp(c.ops[6], 3, 1);
    assert WellFormedOp(c.ops[7], 3, 1);
    assert WellFormedOp(c.ops[8], 3, 1);
    assert WellFormedOp(c.ops[9], 3, 1);
    assert WellFormedOp(c.ops[10], 3, 1);
  }

  /** ASAP from instruction 0 on, given when each wire is free. */
  lemma RandomAsapFrom0(a: Avail, ops: seq<Op>, durs: seq<nat>)
    requires |ops| == 11 && |durs| == 11
    requires ops[0] == Op(Delay(100), [0], [], []) && durs[0] == 100
    requires ops[1] == Op(Gate("x"), [0], [], [0]) && durs[1] == 100
    requires ops[2] == Op(Barrier, [0, 1, 2], [], []) && durs[2] == 0
    requires ops[3] == Op(Measure, [2], [0], []) && durs[3] == 1000
    requires ops[4] == Op(Gate("x"), [1], [], [0]) && durs[4] == 100
    requires ops[5] == Op(Gate("x"), [0], [], [0]) && durs[5] == 100
    requires ops[6] == Op(Delay(300), [0], [], []) && durs[6] == 300
    requires ops[7] == Op(Gate("cx"), [1, 2], [], []) && durs[7] == 200
    requires ops[8] == Op(Gate("x"), [0], [], []) && durs[8] == 100
    requires ops[9] == Op(Gate("cx"), [0, 1], [], [0]) && durs[9] == 200
    requires ops[10] == Op(Measure, [2], [0], []) && durs[10] == 1000
    requires Get(a, Qubit(0)) == 0 && Get(a, Qubit(1)) == 0 && Get(a, Qubit(2)) == 0 && Get(a, Clbit(0)) == 0
    ensures var r := Asap.RunFrom(a, ops[0..], durs[0..], IOLatency(200, 100));
      r.starts == [0, 200] + ([300, 300] + ([1500, 1700] + ([1800, 1600] + ([2100, 2200] + ([2100]))))) && Span(r.avail, 3, 1) == 3100
  {
    var p0 := Asap.Step(a, ops[0], durs[0], IOLatency(200, 100));
    assert p0.start == 0 && Get(p0.avail, Qubit(0)) == 100 && Get(p0.avail, Qubit(1)) == 0 && Get(p0.avail, Qubit(2)) == 0 && Get(p0.avail, Clbit(0)) == 0 by {
      assert QubitWires([0]) == [Qubit(0)] && MaxOver(a, [Qubit(0)]) == 0;
    }
    var p1 := Asap.Step(p0.avail, ops[1], durs[1], IOLatency(200, 100));
    assert p1.start == 200 && Get(p1.avail, Qubit(0)) == 300 && Get(p1.avail, Qubit(1)) == 0 && Get(p1.avail, Qubit(2)) == 0 && Get(p1.avail, Clbit(0)) == 200 by {
      assert QubitWires([0]) == [Qubit(0)] && MaxOver(p0.avail, [Qubit(0)]) == 100 && ClbitWires([0]) == [Clbit(0)] && MaxOver(p0.avail, [Clbit(0)]) == 0;
    }
    Asap.RunFromSteps([a, p0.avail, p1.avail], ops[0..2], durs[0..2], [0, 200], IOLatency(200, 100));
    Asap.RunFromSplit(a, ops, durs, IOLatency(200, 100), 0, 2);
    RandomAsapFrom2(p1.avail, ops, durs);
  }

  /** ASAP from instruction 2 on, given when each wire is free. */
  lemma RandomAsapFrom2(a: Avail, ops: seq<Op>, durs: seq<nat>)
    requires |ops| == 11 && |durs| == 11
    requires ops[2] == Op(Barrier, [0, 1, 2], [], []) && durs[2] == 0
    requires ops[3] == Op(Measure, [2], [0], []) && durs[3] == 1000
    requires ops[4] == Op(Gate("x"), [1], [], [0]) && durs[4] == 100
    requires ops[5] == Op(Gate("x"), [0], [], [0]) && durs[5] == 100
    requires ops[6] == Op(Delay(300), [0], [], []) && durs[6] == 300
    requires ops[7] == Op(Gate("cx"), [1, 2], [], []) && durs[7] == 200
    requires ops[8] == Op(Gate("x"), [0], [], []) && durs[8] == 100
    requires ops[9] == Op(Gate("cx"), [0, 1], [], [0]) && durs[9] == 200
    requires ops[10] == Op(Measure, [2], [0], []) && durs[10] == 1000
    requires Get(a, Qubit(0)) == 300 && Get(a, Qubit(1)) == 0 && Get(a, Qubit(2)) == 0 && Get(a, Clbit(0)) == 200
    ensures var r := Asap.RunFrom(a, ops[2..], durs[2..], IOLatency(200, 100));
      r.starts == [300, 300] + ([1500, 1700] + ([1800, 1600] + ([2100, 2200] + ([2100])))) && Span(r.avail, 3, 1) == 3100
  {
    var p2 := Asap.Step(a, ops[2], durs[2], IOLatency(200, 100));
    assert p2.start == 300 && Get(p2.avail, Qubit(0)) == 300 && Get(p2.avail, Qubit(1)) == 300 && Get(p2.avail, Qubit(2)) == 300 && Get(p2.avail, Clbit(0)) == 200 by {
      assert QubitWires([0, 1, 2]) == [Qubit(0), Qubit(1), Qubit(2)] && MaxOver(a, [Qubit(2)]) == 0 && MaxOver(a, [Qubit(1), Qubit(2)]) == 0 && MaxOver(a, [Qubit(0), Qubit(1), Qubit(2)]) == 300;
    }
    var p3 := Asap.Step(p2.avail, ops[3], durs[3], IOLatency(200, 100));
    assert p3.start == 300 && Get(p3.avail, Qubit(0)) == 300 && Get(p3.avail, Qubit(1)) == 300 && Get(p3.avail, Qubit(2)) == 1300 && Get(p3.avail, Clbit(0)) == 1300 by {
      assert QubitWires([2]) == [Qubit(2)] && MaxOver(p2.avail, [Qubit(2)]) == 300 && ClbitWires([0]) == [Clbit(0)] && MaxOver(p2.avail, [Clbit(0)]) == 200;
    }
    Asap.RunFromSteps([a, p2.avail, p3.avail], ops[2..4], durs[2..4], [300, 300], IOLatency(200, 100));
    Asap.RunFromSplit(a, ops, durs, IOLatency(200, 100), 2, 4);
    RandomAsapFrom4(p3.avail, ops, durs);
  }

  /** ASAP from instruction 4 on, given when each wire is free. */
  lemma RandomAsapFrom4(a: Avail, ops: seq<Op>, durs: seq<nat>)
    requires |ops| == 11 && |durs| == 11
    requires ops[4] == Op(Gate("x"), [1], [], [0]) && durs[4] == 100
    requires ops[5] == Op(Gate("x"), [0], [], [0]) && durs[5] == 100
    requires ops[6] == Op(Delay(300), [0], [], []) && durs[6] == 300
    requires ops[7] == Op(Gate("cx"), [1, 2], [], []) && durs[7] == 200
    requires ops[8] == Op(Gate("x"), [0], [], []) && durs[8] == 100
    requires ops[9] == Op(Gate("cx"), [0, 1], [], [0]) && durs[9] == 200
    requires ops[10] == Op(Measure, [2], [0], []) && durs[10] == 1000
    requires Get(a, Qubit(0)) == 300 && Get(a, Qubit(1)) == 300 && Get(a, Qubit(2)) == 1300 && Get(a, Clbit(0)) == 1300
    ensures var r := Asap.RunFrom(a, ops[4..], durs[4..], IOLatency(200, 100));
      r.starts == [1500, 1700] + ([1800, 1600] + ([2100, 2200] + ([2100]))) && Span(r.avail, 3, 1) == 3100
  {
    var p4 := Asap.Step(a, ops[4], durs[4], IOLatency(200, 100));
    assert p4.start == 1500 && Get(p4.avail, Qubit(0)) == 300 && Get(p4.avail, Qubit(1)) == 1600 && Get(p4.avail, Qubit(2)) == 1300 && Get(p4.avail, Clbit(0)) == 1500 by {
      assert QubitWires([1]) == [Qubit(1)] && MaxOver(a, [Qubit(1)]) == 300 && ClbitWires([0]) == [Clbit(0)] && MaxOver(a, [Clbit(0)]) == 1300;
    }
    var p5 := Asap.Step(p4.avail, ops[5], durs[5], IOLatency(200, 100));
    assert p5.start == 1700 && Get(p5.avail, Qubit(0)) == 1800 && Get(p5.avail, Qubit(1)) == 1600 && Get(p5.avail, Qubit(2)) == 1300 && Get(p5.avail, Clbit(0)) == 1700 by {
      assert QubitWires([0]) == [Qubit(0)] && MaxOver(p4.avail, [Qubit(0)]) == 300 && ClbitWires([0]) == [Clbit(0)] && MaxOver(p4.avail, [Clbit(0)]) == 1500;
    }
    Asap.RunFromSteps([a, p4.avail, p5.avail], ops[4..6], durs[4..6], [1500, 1700], IOLatency(200, 100));
    Asap.RunFromSplit(a, ops, durs, IOLatency(200, 100), 4, 6);
    RandomAsapFrom6(p5.avail, ops, durs);
  }

  /** ASAP from instruction 6 on, given when each wire is free. */
  lemma RandomAsapFrom6(a: Avail, ops: seq<Op>, durs: seq<nat>)
    requires |ops| == 11 && |durs| == 11
    requires ops[6] == Op(Delay(300), [0], [], []) && durs[6] == 300
    requires ops[7] == Op(Gate("cx"), [1, 2], [], []) && durs[7] == 200
    requires ops[8] == Op(Gate("x"), [0], [], []) && durs[8] == 100
    requires ops[9] == Op(Gate("cx"), [0, 1], [], [0]) && durs[9] == 200
    requires ops[10] == Op(Measure, [2], [0], []) && durs[10] == 1000
    requires Get(a, Qubit(0)) == 1800 && Get(a, Qubit(1)) == 1600 && Get(a, Qubit(2)) == 1300 && Get(a, Clbit(0)) == 1700
    ensures var r := Asap.RunFrom(a, ops[6..], durs[6..], IOLatency(200, 100));
      r.starts == [1800, 1600] + ([2100, 2200] + ([2100])) && Span(r.avail, 3, 1) == 3100
  {
    var p6 := Asap.Step(a, ops[6], durs[6], IOLatency(200, 100));
    assert p6.start == 1800 && Get(p6.avail, Qubit(0)) == 2100 && Get(p6.avail, Qubit(1)) == 1600 && Get(p6.avail, Qubit(2)) == 1300 && Get(p6.avail, Clbit(0)) == 1700 by {
      assert QubitWires([0]) == [Qubit(0)] && MaxOver(a, [Qubit(0)]) == 1800;
    }
    var p7 := Asap.Step(p6.avail, ops[7], durs[7], IOLatency(200, 100));
    assert p7.start == 1600 && Get(p7.avail, Qubit(0)) == 2100 && Get(p7.avail, Qubit(1)) == 1800 && Get(p7.avail, Qubit(2)) == 1800 && Get(p7.avail, Clbit(0)) == 1700 by {
      assert QubitWires([1, 2]) == [Qubit(1), Qubit(2)] && MaxOver(p6.avail, [Qubit(2)]) == 1300 && MaxOver(p6.avail, [Qubit(1), Qubit(2)]) == 1600;
    }
    Asap.RunFromSteps([a, p6.avail, p7.avail], ops[6..8], durs[6..8], [1800, 1600], IOLatency(200, 100));
    Asap.RunFromSplit(a, ops, durs, IOLatency(200, 100), 6, 8);
    RandomAsapFrom8(p7.avail, ops, durs);
  }

  /** ASAP from instruction 8 on, given when each wire is free. */
  lemma RandomAsapFrom8(a: Avail, ops: seq<Op>, durs: seq<nat>)
    requires |ops| == 11 && |durs| == 11
    requires ops[8] == Op(Gate("x"), [0], [], []) && durs[8] == 100
    requires ops[9] == Op(Gate("cx"), [0, 1], [], [0]) && durs[9] == 200
    requires ops[10] == Op(Measure, [2], [0], []) && durs[10] == 1000
    requires Get(a, Qubit(0)) == 2100 && Get(a, Qubit(1)) == 1800 && Get(a, Qubit(2)) == 1800 && Get(a, Clbit(0)) == 1700
    ensures var r := Asap.RunFrom(a, ops[8..], durs[8..], IOLatency(200, 100));
      r.starts == [2100, 2200] + ([2100]) && Span(r.avail, 3, 1) == 3100
  {
    var p8 := Asap.Step(a, ops[8], durs[8], IOLatency(200, 100));
    assert p8.start == 2100 && Get(p8.avail, Qubit(0)) == 2200 && Get(p8.avail, Qubit(1)) == 1800 && Get(p8.avail, Qubit(2)) == 1800 && Get(p8.avail, Clbit(0)) == 1700 by {
      assert QubitWires([0]) == [Qubit(0)] && MaxOver(a, [Qubit(0)]) == 2100;
    }
    var p9 := Asap.Step(p8.avail, ops[9], durs[9], IOLatency(200, 100));
    assert p9.start == 2200 && Get(p9.avail, Qubit(0)) == 2400 && Get(p9.avail, Qubit(1)) == 2400 && Get(p9.avail, Qubit(2)) == 1800 && Get(p9.avail, Clbit(0)) == 2200 by {
      assert QubitWires([0, 1]) == [Qubit(0), Qubit(1)] && MaxOver(p8.avail, [Qubit(1)]) == 1800 && MaxOver(p8.avail, [Qubit(0), Qubit(1)]) == 2200 && ClbitWires([0]) == [Clbit(0)] && MaxOver(p8.avail, [Clbit(0)]) == 1700;
    }
    Asap.RunFromSteps([a, p8.avail, p9.avail], ops[8..10], durs[8..10], [2100, 2200], IOLatency(200, 100));
    Asap.RunFromSplit(a, ops, durs, IOLatency(200, 100), 8, 10);
    RandomAsapFrom10(p9.avail, ops, durs);
  }

  /** ASAP from instruction 10 on, given when each wire is free. */
  lemma RandomAsapFrom10(a: Avail, ops: seq<Op>, durs: seq<nat>)
    requires |ops| == 11 && |durs| == 11
    requires ops[10] == Op(Measure, [2], [0], []) && durs[10] == 1000
    requires Get(a, Qubit(0)) == 2400 && Get(a, Qubit(1)) == 2400 && Get(a, Qubit(2)) == 1800 && Get(a, Clbit(0)) == 2200
    ensures var r := Asap.RunFrom(a, ops[10..], durs[10..], IOLatency(200, 100));
      r.starts == [2100] && Span(r.avail, 3, 1) == 3100
  {
    var p10 := Asap.Step(a, ops[10], durs[10], IOLatency(200, 100));
    assert p10.start == 2100 && Get(p10.avail, Qubit(0)) == 2400 && Get(p10.avail, Qubit(1)) == 2400 && Get(p10.avail, Qubit(2)) == 3100 && Get(p10.avail, Clbit(0)) == 3100 by {
      assert QubitWires([2]) == [Qubit(2)] && MaxOver(a, [Qubit(2)]) == 1800 && ClbitWires([0]) == [Clbit(0)] && MaxOver(a, [Clbit(0)]) == 2200;
    }
    Asap.RunFromSteps([a, p10.avail], ops[10..], durs[10..], [2100], IOLatency(200, 100));
    assert Span(p10.avail, 3, 1) == 3100 by {
      assert AllWires(3, 1) == [Qubit(0), Qubit(1), Qubit(2), Clbit(0)] && MaxOver(p10.avail, [Clbit(0)]) == 3100 && MaxOver(p10.avail, [Qubit(2), Clbit(0)]) == 3100 && MaxOver(p10.avail, [Qubit(1), Qubit(2), Clbit(0)]) == 3100 && MaxOver(p10.avail, [Qubit(0), Qubit(1), Qubit(2), Clbit(0)]) == 3100;
    }
  }

  /** The start times, gathered. */
  lemma RandomAsapStarts(starts: seq<int>)
    requires starts == [0, 200] + ([300, 300] + ([1500, 1700] + ([1800, 1600] + ([2100, 2200] + ([2100])))))
    ensures starts == [0, 200, 300, 300, 1500, 1700, 1800, 1600, 2100, 2200, 2100]
  {
  }

  /** ASAP scheduling starts the instructions at [0, 200, 300, 300, 1500, 1700, 1800, 1600, 2100, 2200, 2100], and the circuit lasts 3100. */
  lemma RandomAsap(c: Circuit, durs: seq<nat>)
    requires c.numQubits == 3 && c.numClbits == 1 && |c.ops| == 11 && |durs| == 11
    requires c.ops[0] == Op(Delay(100), [0], [], []) && durs[0] == 100
    requires c.ops[1] == Op(Gate("x"), [0], [], [0]) && durs[1] == 100
    requires c.ops[2] == Op(Barrier, [0, 1, 2], [], []) && durs[2] == 0
    requires c.ops[3] == Op(Measure, [2], [0], []) && durs[3] == 1000
    requires c.ops[4] == Op(Gate("x"), [1], [], [0]) && durs[4] == 100
    requires c.ops[5] == Op(Gate("x"), [0], [], [0]) && durs[5] == 100
    requires c.ops[6] == Op(Delay(300), [0], [], []) && durs[6] == 300
    requires c.ops[7] == Op(Gate("cx"), [1, 2], [], []) && durs[7] == 200
    requires c.ops[8] == Op(Gate("x"), [0], [], []) && durs[8] == 100
    requires c.ops[9] == Op(Gate("cx"), [0, 1], [], [0]) && durs[9] == 200
    requires c.ops[10] == Op(Measure, [2], [0], []) && durs[10] == 1000
    ensures WellFormed(c)
    ensures Asap.Schedule(c, durs, IOLatency(200, 100)) == Timing.Schedule([0, 200, 300, 300, 1500, 1700, 1800, 1600, 2100, 2200, 2100], durs, 3100)
  {
    RandomWellFormed(c);
    WellFormedSchedulable(c);
    Asap.RunIsRunFrom(c.ops, durs, IOLatency(200, 100));
    assert c.ops[0..] == c.ops && durs[0..] == durs;
    RandomAsapFrom0(map[], c.ops, durs);
    RandomAsapStarts(Asap.Run(c.ops, durs, IOLatency(200, 100)).starts);
  }

  /** ALAP over the instructions before 1, given when each wire is needed by the later ones. */
  lemma RandomAlapTo1(a: Avail, ops: seq<Op>, durs: seq<nat>)
    requires |ops| == 11 && |durs| == 11
    requires ops[0] == Op(Delay(100), [0], [], []) && durs[0] == 100
    requires Get(a, Qubit(0)) == 2900 && Get(a, Qubit(1)) == 2800 && Get(a, Qubit(2)) == 2800 && Get(a, Clbit(0)) == 3100
    ensures var r := Alap.RunFrom(a, ops[..1], durs[..1], IOLatency(200, 100));
      r.starts == [2900] && Span(r.avail, 3, 1) == 3100
  {
    var p0 := Alap.Step(a, ops[0], durs[0], IOLatency(200, 100));
    assert p0.start == 2900 && Get(p0.avail, Qubit(0)) == 3000 && Get(p0.avail, Qubit(1)) == 2800 && Get(p0.avail, Qubit(2)) == 2800 && Get(p0.avail, Clbit(0)) == 3100 by {
      assert QubitWires([0]) == [Qubit(0)] && MaxOver(a, [Qubit(0)]) == 2900;
    }
    Alap.RunFromSteps([p0.avail, a], ops[0..1], durs[0..1], [2900], IOLatency(200, 100));
    Alap.RunFromSplit(a, ops, durs, IOLatency(200, 100), 0, 1);
    assert Span(p0.avail, 3, 1) == 3100 by {
      assert AllWires(3, 1) == [Qubit(0), Qubit(1), Qubit(2), Clbit(0)] && MaxOver(p0.avail, [Clbit(0)]) == 3100 && MaxOver(p0.avail, [Qubit(2), Clbit(0)]) == 3100 && MaxOver(p0.avail, [Qubit(1), Qubit(2), Clbit(0)]) == 3100 && MaxOver(p0.avail, [Qubit(0), Qubit(1), Qubit(2), Clbit(0)]) == 3100;
    }
  }

  /** ALAP over the instructions before 3, given when each wire is needed by the later ones. */
  lemma RandomAlapTo3(a: Avail, ops: seq<Op>, durs: seq<nat>)
    requires |ops| == 11 && |durs| == 11
    requires ops[0] == Op(Delay(100), [0], [], []) && durs[0] == 100
    requires ops[1] == Op(Gate("x"), [0], [], [0]) && durs[1] == 100
    requires ops[2] == Op(Barrier, [0, 1, 2], [], []) && durs[2] == 0
    requires Get(a, Qubit(0)) == 1400 && Get(a, Qubit(1)) == 1600 && Get(a, Qubit(2)) == 2800 && Get(a, Clbit(0)) == 2700
    ensures var r := Alap.RunFrom(a, ops[..3], durs[..3], IOLatency(200, 100));
      r.starts == ([2900]) + [2800, 2800] && Span(r.avail, 3, 1) == 3100
  {
    var p2 := Alap.Step(a, ops[2], durs[2], IOLatency(200, 100));
    assert p2.start == 2800 && Get(p2.avail, Qubit(0)) == 2800 && Get(p2.avail, Qubit(1)) == 2800 && Get(p2.avail, Qubit(2)) == 2800 && Get(p2.avail, Clbit(0)) == 2700 by {
      assert QubitWires([0, 1, 2]) == [Qubit(0), Qubit(1), Qubit(2)] && MaxOver(a, [Qubit(2)]) == 2800 && MaxOver(a, [Qubit(1), Qubit(2)]) == 2800 && MaxOver(a, [Qubit(0), Qubit(1), Qubit(2)]) == 2800;
    }
    var p1 := Alap.Step(p2.avail, ops[1], durs[1], IOLatency(200, 100));
    assert p1.start == 2800 && Get(p1.avail, Qubit(0)) == 2900 && Get(p1.avail, Qubit(1)) == 2800 && Get(p1.avail, Qubit(2)) == 2800 && Get(p1.avail, Clbit(0)) == 3100 by {
      assert QubitWires([0]) == [Qubit(0)] && MaxOver(p2.avail, [Qubit(0)]) == 2800 && ClbitWires([0]) == [Clbit(0)] && MaxOver(p2.avail, [Clbit(0)]) == 2700;
    }
    Alap.RunFromSteps([p1.avail, p2.avail, a], ops[1..3], durs[1..3], [2800, 2800], IOLatency(200, 100));
    Alap.RunFromSplit(a, ops, durs, IOLatency(200, 100), 1, 3);
    RandomAlapTo1(p1.avail, ops, durs);
  }

  /** ALAP over the instructions before 5, given when each wire is needed by the later ones. */
  lemma RandomAlapTo5(a: Avail, ops: seq<Op>, durs: seq<nat>)
    requires |ops| == 11 && |durs| == 11
    requires ops[0] == Op(Delay(100), [0], [], []) && durs[0] == 100
    requires ops[1] == Op(Gate("x"), [0], [], [0]) && durs[1] == 100
    requires ops[2] == Op(Barrier, [0, 1, 2], [], []) && durs[2] == 0
    requires ops[3] == Op(Measure, [2], [0], []) && durs[3] == 1000
    requires ops[4] == Op(Gate("x"), [1], [], [0]) && durs[4] == 100
    requires Get(a, Qubit(0)) == 1400 && Get(a, Qubit(1)) == 1200 && Get(a, Qubit(2)) == 1200 && Get(a, Clbit(0)) == 1600
    ensures var r := Alap.RunFrom(a, ops[..5], durs[..5], IOLatency(200, 100));
      r.starts == (([2900]) + [2800, 2800]) + [1800, 1500] && Span(r.avail, 3, 1) == 3100
  {
    var p4 := Alap.Step(a, ops[4], durs[4], IOLatency(200, 100));
    assert p4.start == 1500 && Get(p4.avail, Qubit(0)) == 1400 && Get(p4.avail, Qubit(1)) == 1600 && Get(p4.avail, Qubit(2)) == 1200 && Get(p4.avail, Clbit(0)) == 1800 by {
      assert QubitWires([1]) == [Qubit(1)] && MaxOver(a, [Qubit(1)]) == 1200 && ClbitWires([0]) == [Clbit(0)] && MaxOver(a, [Clbit(0)]) == 1600;
    }
    var p3 := Alap.Step(p4.avail, ops[3], durs[3], IOLatency(200, 100));
    assert p3.start == 1800 && Get(p3.avail, Qubit(0)) == 1400 && Get(p3.avail, Qubit(1)) == 1600 && Get(p3.avail, Qubit(2)) == 2800 && Get(p3.avail, Clbit(0)) == 2700 by {
      assert QubitWires([2]) == [Qubit(2)] && MaxOver(p4.avail, [Qubit(2)]) == 1200 && ClbitWires([0]) == [Clbit(0)] && MaxOver(p4.avail, [Clbit(0)]) == 1800;
    }
    Alap.RunFromSteps([p3.avail, p4.avail, a], ops[3..5], durs[3..5], [1800, 1500], IOLatency(200, 100));
    Alap.RunFromSplit(a, ops, durs, IOLatency(200, 100), 3, 5);
    RandomAlapTo3(p3.avail, ops, durs);
  }

  /** ALAP over the instructions before 7, given when each wire is needed by the later ones. */
  lemma RandomAlapTo7(a: Avail, ops: seq<Op>, durs: seq<nat>)
    requires |ops| == 11 && |durs| == 11
    requires ops[0] == Op(Delay(100), [0], [], []) && durs[0] == 100
    requires ops[1] == Op(Gate("x"), [0], [], [0]) && durs[1] == 100
    requires ops[2] == Op(Barrier, [0, 1, 2], [], []) && durs[2] == 0
    requires ops[3] == Op(Measure, [2], [0], []) && durs[3] == 1000
    requires ops[4] == Op(Gate("x"), [1], [], [0]) && durs[4] == 100
    requires ops[5] == Op(Gate("x"), [0], [], [0]) && durs[5] == 100
    requires ops[6] == Op(Delay(300), [0], [], []) && durs[6] == 300
    requires Get(a, Qubit(0)) == 1000 && Get(a, Qubit(1)) == 1200 && Get(a, Qubit(2)) == 1200 && Get(a, Clbit(0)) == 1100
    ensures var r := Alap.RunFrom(a, ops[..7], durs[..7], IOLatency(200, 100));
      r.starts == ((([2900]) + [2800, 2800]) + [1800, 1500]) + [1300, 1000] && Span(r.avail, 3, 1) == 3100
  {
    var p6 := Alap.Step(a, ops[6], durs[6], IOLatency(200, 100));
    assert p6.start == 1000 && Get(p6.avail, Qubit(0)) == 1300 && Get(p6.avail, Qubit(1)) == 1200 && Get(p6.avail, Qubit(2)) == 1200 && Get(p6.avail, Clbit(0)) == 1100 by {
      assert QubitWires([0]) == [Qubit(0)] && MaxOver(a, [Qubit(0)]) == 1000;
    }
    var p5 := Alap.Step(p6.avail, ops[5], durs[5], IOLatency(200, 100));
    assert p5.start == 1300 && Get(p5.avail, Qubit(0)) == 1400 && Get(p5.avail, Qubit(1)) == 1200 && Get(p5.avail, Qubit(2)) == 1200 && Get(p5.avail, Clbit(0)) == 1600 by {
      assert QubitWires([0]) == [Qubit(0)] && MaxOver(p6.avail, [Qubit(0)]) == 1300 && ClbitWires([0]) == [Clbit(0)] && MaxOver(p6.avail, [Clbit(0)]) == 1100;
    }
    Alap.RunFromSteps([p5.avail, p6.avail, a], ops[5..7], durs[5..7], [1300, 1000], IOLatency(200, 100));
    Alap.RunFromSplit(a, ops, durs, IOLatency(200, 100), 5, 7);
    RandomAlapTo5(p5.avail, ops, durs);
  }

  /** ALAP over the instructions before 9, given when each wire is needed by the later ones. */
  lemma RandomAlapTo9(a: Avail, ops: seq<Op>, durs: seq<nat>)
    requires |ops| == 11 && |durs| == 11
    requires ops[0] == Op(Delay(100), [0], [], []) && durs[0] == 100
    requires ops[1] == Op(Gate("x"), [0], [], [0]) && durs[1] == 100
    requires ops[2] == Op(Barrier, [0, 1, 2], [], []) && durs[2] == 0
    requires ops[3] == Op(Measure, [2], [0], []) && durs[3] == 1000
    requires ops[4] == Op(Gate("x"), [1], [], [0]) && durs[4] == 100
    requires ops[5] == Op(Gate("x"), [0], [], [0]) && durs[5] == 100
    requires ops[6] == Op(Delay(300), [0], [], []) && durs[6] == 300
    requires ops[7] == Op(Gate("cx"), [1, 2], [], []) && durs[7] == 200
    requires ops[8] == Op(Gate("x"), [0], [], []) && durs[8] == 100
    requires Get(a, Qubit(0)) == 900 && Get(a, Qubit(1)) == 900 && Get(a, Qubit(2)) == 1000 && Get(a, Clbit(0)) == 1100
    ensures var r := Alap.RunFrom(a, ops[..9], durs[..9], IOLatency(200, 100));
      r.starts == (((([2900]) + [2800, 2800]) + [1800, 1500]) + [1300, 1000]) + [1000, 900] && Span(r.avail, 3, 1) == 3100
  {
    var p8 := Alap.Step(a, ops[8], durs[8], IOLatency(200, 100));
    assert p8.start == 900 && Get(p8.avail, Qubit(0)) == 1000 && Get(p8.avail, Qubit(1)) == 900 && Get(p8.avail, Qubit(2)) == 1000 && Get(p8.avail, Clbit(0)) == 1100 by {
      assert QubitWires([0]) == [Qubit(0)] && MaxOver(a, [Qubit(0)]) == 900;
    }
    var p7 := Alap.Step(p8.avail, ops[7], durs[7], IOLatency(200, 100));
    assert p7.start == 1000 && Get(p7.avail, Qubit(0)) == 1000 && Get(p7.avail, Qubit(1)) == 1200 && Get(p7.avail, Qubit(2)) == 1200 && Get(p7.avail, Clbit(0)) == 1100 by {
      assert QubitWires([1, 2]) == [Qubit(1), Qubit(2)] && MaxOver(p8.avail, [Qubit(2)]) == 1000 && MaxOver(p8.avail, [Qubit(1), Qubit(2)]) == 1000;
    }
    Alap.RunFromSteps([p7.avail, p8.avail, a], ops[7..9], durs[7..9], [1000, 900], IOLatency(200, 100));
    Alap.RunFromSplit(a, ops, durs, IOLatency(200, 100), 7, 9);
    RandomAlapTo7(p7.avail, ops, durs);
  }

  /** ALAP over the instructions before 11, given when each wire is needed by the later ones. */
  lemma RandomAlapTo11(a: Avail, ops: seq<Op>, durs: seq<nat>)
    requires |ops| == 11 && |durs| == 11
    requires ops[0] == Op(Delay(100), [0], [], []) && durs[0] == 100
    requires ops[1] == Op(Gate("x"), [0], [], [0]) && durs[1] == 100
    requires ops[2] == Op(Barrier, [0, 1, 2], [], []) && durs[2] == 0
    requires ops[3] == Op(Measure, [2], [0], []) && durs[3] == 1000
    requires ops[4] == Op(Gate("x"), [1], [], [0]) && durs[4] == 100
    requires ops[5] == Op(Gate("x"), [0], [], [0]) && durs[5] == 100
    requires ops[6] == Op(Delay(300), [0], [], []) && durs[6] == 300
    requires ops[7] == Op(Gate("cx"), [1, 2], [], []) && durs[7] == 200
    requires ops[8] == Op(Gate("x"), [0], [], []) && durs[8] == 100
    requires ops[9] == Op(Gate("cx"), [0, 1], [], [0]) && durs[9] == 200
    requires ops[10] == Op(Measure, [2], [0], []) && durs[10] == 1000
    requires Get(a, Qubit(0)) == 0 && Get(a, Qubit(1)) == 0 && Get(a, Qubit(2)) == 0 && Get(a, Clbit(0)) == 0
    ensures var r := Alap.RunFrom(a, ops[..11], durs[..11], IOLatency(200, 100));
      r.starts == ((((([2900]) + [2800, 2800]) + [1800, 1500]) + [1300, 1000]) + [1000, 900]) + [700, 0] && Span(r.avail, 3, 1) == 3100
  {
    var p10 := Alap.Step(a, ops[10], durs[10], IOLatency(200, 100));
    assert p10.start == 0 && Get(p10.avail, Qubit(0)) == 0 && Get(p10.avail, Qubit(1)) == 0 && Get(p10.avail, Qubit(2)) == 1000 && Get(p10.avail, Clbit(0)) == 900 by {
      assert QubitWires([2]) == [Qubit(2)] && MaxOver(a, [Qubit(2)]) == 0 && ClbitWires([0]) == [Clbit(0)] && MaxOver(a, [Clbit(0)]) == 0;
    }
    var p9 := Alap.Step(p10.avail, ops[9], durs[9], IOLatency(200, 100));
    assert p9.start == 700 && Get(p9.avail, Qubit(0)) == 900 && Get(p9.avail, Qubit(1)) == 900 && Get(p9.avail, Qubit(2)) == 1000 && Get(p9.avail, Clbit(0)) == 1100 by {
      assert QubitWires([0, 1]) == [Qubit(0), Qubit(1)] && MaxOver(p10.avail, [Qubit(1)]) == 0 && MaxOver(p10.avail, [Qubit(0), Qubit(1)]) == 0 && ClbitWires([0]) == [Clbit(0)] && MaxOver(p10.avail, [Clbit(0)]) == 900;
    }
    Alap.RunFromSteps([p9.avail, p10.avail, a], ops[9..11], durs[9..11], [700, 0], IOLatency(200, 100));
    Alap.RunFromSplit(a, ops, durs, IOLatency(200, 100), 9, 11);
    RandomAlapTo9(p9.avail, ops, durs);
  }

  /** Start times counted from the beginning. */
  lemma RandomAlapFlip(ends: seq<int>, durs: seq<nat>)
    requires ends == ((((([2900]) + [2800, 2800]) + [1800, 1500]) + [1300, 1000]) + [1000, 900]) + [700, 0] && |durs| == 11
    requires durs[0] == 100
    requires durs[1] == 100
    requires durs[2] == 0
    requires durs[3] == 1000
    requires durs[4] == 100
    requires durs[5] == 100
    requires durs[6] == 300
    requires durs[7] == 200
    requires durs[8] == 100
    requires durs[9] == 200
    requires durs[10] == 1000
    ensures Alap.Flip(ends, durs, 3100) == [100, 200, 300, 300, 1500, 1700, 1800, 1900, 2100, 2200, 2100]
  {
  }
  /** ALAP scheduling starts the instructions at [100, 200, 300, 300, 1500, 1700, 1800, 1900, 2100, 2200, 2100], and the circuit lasts 3100. */
  lemma RandomAlap(c: Circuit, durs: seq<nat>)
    requires c.numQubits == 3 && c.numClbits == 1 && |c.ops| == 11 && |durs| == 11
    requires c.ops[0] == Op(Delay(100), [0], [], []) && durs[0] == 100
    requires c.ops[1] == Op(Gate("x"), [0], [], [0]) && durs[1] == 100
    requires c.ops[2] == Op(Barrier, [0, 1, 2], [], []) && durs[2] == 0
    requires c.ops[3] == Op(Measure, [2], [0], []) && durs[3] == 1000
    requires c.ops[4] == Op(Gate("x"), [1], [], [0]) && durs[4] == 100
    requires c.ops[5] == Op(Gate("x"), [0], [], [0]) && durs[5] == 100
    requires c.ops[6] == Op(Delay(300), [0], [], []) && durs[6] == 300
    requires c.ops[7] == Op(Gate("cx"), [1, 2], [], []) && durs[7] == 200
    requires c.ops[8] == Op(Gate("x"), [0], [], []) && durs[8] == 100
    requires c.ops[9] == Op(Gate("cx"), [0, 1], [], [0]) && durs[9] == 200
    requires c.ops[10] == Op(Measure, [2], [0], []) && durs[10] == 1000
    ensures WellFormed(c)
    ensures Alap.Schedule(c, durs, IOLatency(200, 100)) == Timing.Schedule([100, 200, 300, 300, 1500, 1700, 1800, 1900, 2100, 2200, 2100], durs, 3100)
  {
    RandomWellFormed(c);
    WellFormedSchedulable(c);
    Alap.RunIsRunFrom(c.ops, durs, IOLatency(200, 100));
    assert c.ops[..11] == c.ops && durs[..11] == durs;
    RandomAlapTo11(map[], c.ops, durs);
    RandomAlapFlip(Alap.Run(c.ops, durs, IOLatency(200, 100)).starts, durs);
  }

  /** Padding from instruction 0 on, given each qubit's cursor. */
  lemma RandomAsapPadFrom0(cur: Avail, o: seq<Timed>, ops: seq<Op>, starts: seq<int>, durs: seq<nat>)
    requires |ops| == 11 && |starts| == 11 && |durs| == 11
    requires ops[0] == Op(Delay(100), [0], [], []) && starts[0] == 0 && durs[0] == 100
    requires ops[1] == Op(Gate("x"), [0], [], [0]) && starts[1] == 200 && durs[1] == 100
    requires ops[2] == Op(Barrier, [0, 1, 2], [], []) && starts[2] == 300 && durs[2] == 0
    requires ops[3] == Op(Measure, [2], [0], []) && starts[3] == 300 && durs[3] == 1000
    requires ops[4] == Op(Gate("x"), [1], [], [0]) && starts[4] == 1500 && durs[4] == 100
    requires ops[5] == Op(Gate("x"), [0], [], [0]) && starts[5] == 1700 && durs[5] == 100
    requires ops[6] == Op(Delay(300), [0], [], []) && starts[6] == 1800 && durs[6] == 300
    requires ops[7] == Op(Gate("cx"), [1, 2], [], []) && starts[7] == 1600 && durs[7] == 200
    requires ops[8] == Op(Gate("x"), [0], [], []) && starts[8] == 2100 && durs[8] == 100
    requires ops[9] == Op(Gate("cx"), [0, 1], [], [0]) && starts[9] == 2200 && durs[9] == 200
    requires ops[10] == Op(Measure, [2], [0], []) && starts[10] == 2100 && durs[10] == 1000
    requires Get(cur, Qubit(0)) == 0 && Get(cur, Qubit(1)) == 0 && Get(cur, Qubit(2)) == 0
    ensures var r := PadFrom(PadState(cur, o), ops[0..], starts[0..], durs[0..], None);
      r.out == ((((((((o + [Idle(0, 0, 200), Timed(Op(Gate("x"), [0], [], [0]), 200, 100)]) + [Idle(1, 0, 300), Idle(2, 0, 300), Timed(Op(Barrier, [0, 1, 2], [], []), 300, 0)]) + [Timed(Op(Measure, [2], [0], []), 300, 1000)]) + [Idle(1, 300, 1500), Timed(Op(Gate("x"), [1], [], [0]), 1500, 100)]) + [Idle(0, 300, 1700), Timed(Op(Gate("x"), [0], [], [0]), 1700, 100)]) + [Idle(2, 1300, 1600), Timed(Op(Gate("cx"), [1, 2], [], []), 1600, 200)]) + [Idle(0, 1800, 2100), Timed(Op(Gate("x"), [0], [], []), 2100, 100)]) + [Idle(1, 1800, 2200), Timed(Op(Gate("cx"), [0, 1], [], [0]), 2200, 200)]) + [Idle(2, 1800, 2100), Timed(Op(Measure, [2], [0], []), 2100, 1000)] && Get(r.cursor, Qubit(0)) == 2400 && Get(r.cursor, Qubit(1)) == 2400 && Get(r.cursor, Qubit(2)) == 3100
  {
    PadFromAt(PadState(cur, o), ops, starts, durs, None, 0);
    RandomAsapPadFrom1(cur, o, ops, starts, durs);
  }

  /** Padding from instruction 1 on, given each qubit's cursor. */
  lemma RandomAsapPadFrom1(cur: Avail, o: seq<Timed>, ops: seq<Op>, starts: seq<int>, durs: seq<nat>)
    requires |ops| == 11 && |starts| == 11 && |durs| == 11
    requires ops[1] == Op(Gate("x"), [0], [], [0]) && starts[1] == 200 && durs[1] == 100
    requires ops[2] == Op(Barrier, [0, 1, 2], [], []) && starts[2] == 300 && durs[2] == 0
    requires ops[3] == Op(Measure, [2], [0], []) && starts[3] == 300 && durs[3] == 1000
    requires ops[4] == Op(Gate("x"), [1], [], [0]) && starts[4] == 1500 && durs[4] == 100
    requires ops[5] == Op(Gate("x"), [0], [], [0]) && starts[5] == 1700 && durs[5] == 100
    requires ops[6] == Op(Delay(300), [0], [], []) && starts[6] == 1800 && durs[6] == 300
    requires ops[7] == Op(Gate("cx"), [1, 2], [], []) && starts[7] == 1600 && durs[7] == 200
    requires ops[8] == Op(Gate("x"), [0], [], []) && starts[8] == 2100 && durs[8] == 100
    requires ops[9] == Op(Gate("cx"), [0, 1], [], [0]) && starts[9] == 2200 && durs[9] == 200
    requires ops[10] == Op(Measure, [2], [0], []) && starts[10] == 2100 && durs[10] == 1000
    requires Get(cur, Qubit(0)) == 0 && Get(cur, Qubit(1)) == 0 && Get(cur, Qubit(2)) == 0
    ensures var r := PadFrom(PadState(cur, o), ops[1..], starts[1..], durs[1..], None);
      r.out == ((((((((o + [Idle(0, 0, 200), Timed(Op(Gate("x"), [0], [], [0]), 200, 100)]) + [Idle(1, 0, 300), Idle(2, 0, 300), Timed(Op(Barrier, [0, 1, 2], [], []), 300, 0)]) + [Timed(Op(Measure, [2], [0], []), 300, 1000)]) + [Idle(1, 300, 1500), Timed(Op(Gate("x"), [1], [], [0]), 1500, 100)]) + [Idle(0, 300, 1700), Timed(Op(Gate("x"), [0], [], [0]), 1700, 100)]) + [Idle(2, 1300, 1600), Timed(Op(Gate("cx"), [1, 2], [], []), 1600, 200)]) + [Idle(0, 1800, 2100), Timed(Op(Gate("x"), [0], [], []), 2100, 100)]) + [Idle(1, 1800, 2200), Timed(Op(Gate("cx"), [0, 1], [], [0]), 2200, 200)]) + [Idle(2, 1800, 2100), Timed(Op(Measure, [2], [0], []), 2100, 1000)] && Get(r.cursor, Qubit(0)) == 2400 && Get(r.cursor, Qubit(1)) == 2400 && Get(r.cursor, Qubit(2)) == 3100
  {
    PadFromAt(PadState(cur, o), ops, starts, durs, None, 1);
    var s1 := PlaceOp(PadState(cur, []), ops[1], starts[1], durs[1], None);
    assert s1.out == [Idle(0, 0, 200), Timed(Op(Gate("x"), [0], [], [0]), 200, 100)] && Get(s1.cursor, Qubit(0)) == 300 && Get(s1.cursor, Qubit(1)) == 0 && Get(s1.cursor, Qubit(2)) == 0;
    PlaceOpOut(cur, o, ops[1], starts[1], durs[1], None);
    RandomAsapPadFrom2(s1.cursor, o + [Idle(0, 0, 200), Timed(Op(Gate("x"), [0], [], [0]), 200, 100)], ops, starts, durs);
  }

  /** Padding from instruction 2 on, given each qubit's cursor. */
  lemma RandomAsapPadFrom2(cur: Avail, o: seq<Timed>, ops: seq<Op>, starts: seq<int>, durs: seq<nat>)
    requires |ops| == 11 && |starts| == 11 && |durs| == 11
    requires ops[2] == Op(Barrier, [0, 1, 2], [], []) && starts[2] == 300 && durs[2] == 0
    requires ops[3] == Op(Measure, [2], [0], []) && starts[3] == 300 && durs[3] == 1000
    requires ops[4] == Op(Gate("x"), [1], [], [0]) && starts[4] == 1500 && durs[4] == 100
    requires ops[5] == Op(Gate("x"), [0], [], [0]) && starts[5] == 1700 && durs[5] == 100
    requires ops[6] == Op(Delay(300), [0], [], []) && starts[6] == 1800 && durs[6] == 300
    requires ops[7] == Op(Gate("cx"), [1, 2], [], []) && starts[7] == 1600 && durs[7] == 200
    requires ops[8] == Op(Gate("x"), [0], [], []) && starts[8] == 2100 && durs[8] == 100
    requires ops[9] == Op(Gate("cx"), [0, 1], [], [0]) && starts[9] == 2200 && durs[9] == 200
    requires ops[10] == Op(Measure, [2], [0], []) && starts[10] == 2100 && durs[10] == 1000
    requires Get(cur, Qubit(0)) == 300 && Get(cur, Qubit(1)) == 0 && Get(cur, Qubit(2)) == 0
    ensures var r := PadFrom(PadState(cur, o), ops[2..], starts[2..], durs[2..], None);
      r.out == (((((((o + [Idle(1, 0, 300), Idle(2, 0, 300), Timed(Op(Barrier, [0, 1, 2], [], []), 300, 0)]) + [Timed(Op(Measure, [2], [0], []), 300, 1000)]) + [Idle(1, 300, 1500), Timed(Op(Gate("x"), [1], [], [0]), 1500, 100)]) + [Idle(0, 300, 1700), Timed(Op(Gate("x"), [0], [], [0]), 1700, 100)]) + [Idle(2, 1300, 1600), Timed(Op(Gate("cx"), [1, 2], [], []), 1600, 200)]) + [Idle(0, 1800, 2100), Timed(Op(Gate("x"), [0], [], []), 2100, 100)]) + [Idle(1, 1800, 2200), Timed(Op(Gate("cx"), [0, 1], [], [0]), 2200, 200)]) + [Idle(2, 1800, 2100), Timed(Op(Measure, [2], [0], []), 2100, 1000)] && Get(r.cursor, Qubit(0)) == 2400 && Get(r.cursor, Qubit(1)) == 2400 && Get(r.cursor, Qubit(2)) == 3100
  {
    PadFromAt(PadState(cur, o), ops, starts, durs, None, 2);
    var s2 := PlaceOp(PadState(cur, []), ops[2], starts[2], durs[2], None);
    assert s2.out == [Idle(1, 0, 300), Idle(2, 0, 300), Timed(Op(Barrier, [0, 1, 2], [], []), 300, 0)] && Get(s2.cursor, Qubit(0)) == 300 && Get(s2.cursor, Qubit(1)) == 300 && Get(s2.cursor, Qubit(2)) == 300;
    PlaceOpOut(cur, o, ops[2], starts[2], durs[2], None);
    RandomAsapPadFrom3(s2.cursor, o + [Idle(1, 0, 300), Idle(2, 0, 300), Timed(Op(Barrier, [0, 1, 2], [], []), 300, 0)], ops, starts, durs);
  }

  /** Padding from instruction 3 on, given each qubit's cursor. */
  lemma RandomAsapPadFrom3(cur: Avail, o: seq<Timed>, ops: seq<Op>, starts: seq<int>, durs: seq<nat>)
    requires |ops| == 11 && |starts| == 11 && |durs| == 11
    requires ops[3] == Op(Measure, [2], [0], []) && starts[3] == 300 && durs[3] == 1000
    requires ops[4] == Op(Gate("x"), [1], [], [0]) && starts[4] == 1500 && durs[4] == 100
    requires ops[5] == Op(Gate("x"), [0], [], [0]) && starts[5] == 1700 && durs[5] == 100
    requires ops[6] == Op(Delay(300), [0], [], []) && starts[6] == 1800 && durs[6] == 300
    requires ops[7] == Op(Gate("cx"), [1, 2], [], []) && starts[7] == 1600 && durs[7] == 200
    requires ops[8] == Op(Gate("x"), [0], [], []) && starts[8] == 2100 && durs[8] == 100
    requires ops[9] == Op(Gate("cx"), [0, 1], [], [0]) && starts[9] == 2200 && durs[9] == 200
    requires ops[10] == Op(Measure, [2], [0], []) && starts[10] == 2100 && durs[10] == 1000
    requires Get(cur, Qubit(0)) == 300 && Get(cur, Qubit(1)) == 300 && Get(cur, Qubit(2)) == 300
    ensures var r := PadFrom(PadState(cur, o), ops[3..], starts[3..], durs[3..], None);
      r.out == ((((((o + [Timed(Op(Measure, [2], [0], []), 300, 1000)]) + [Idle(1, 300, 1500), Timed(Op(Gate("x"), [1], [], [0]), 1500, 100)]) + [Idle(0, 300, 1700), Timed(Op(Gate("x"), [0], [], [0]), 1700, 100)]) + [Idle(2, 1300, 1600), Timed(Op(Gate("cx"), [1, 2], [], []), 1600, 200)]) + [Idle(0, 1800, 2100), Timed(Op(Gate("x"), [0], [], []), 2100, 100)]) + [Idle(1, 1800, 2200), Timed(Op(Gate("cx"), [0, 1], [], [0]), 2200, 200)]) + [Idle(2, 1800, 2100), Timed(Op(Measure, [2], [0], []), 2100, 1000)] && Get(r.cursor, Qubit(0)) == 2400 && Get(r.cursor, Qubit(1)) == 2400 && Get(r.cursor, Qubit(2)) == 3100
  {
    PadFromAt(PadState(cur, o), ops, starts, durs, None, 3);
    var s3 := PlaceOp(PadState(cur, []), ops[3], starts[3], durs[3], None);
    assert s3.out == [Timed(Op(Measure, [2], [0], []), 300, 1000)] && Get(s3.cursor, Qubit(0)) == 300 && Get(s3.cursor, Qubit(1)) == 300 && Get(s3.cursor, Qubit(2)) == 1300;
    PlaceOpOut(cur, o, ops[3], starts[3], durs[3], None);
    RandomAsapPadFrom4(s3.cursor, o + [Timed(Op(Measure, [2], [0], []), 300, 1000)], ops, starts, durs);
  }

  /** Padding from instruction 4 on, given each qubit's cursor. */
  lemma RandomAsapPadFrom4(cur: Avail, o: seq<Timed>, ops: seq<Op>, starts: seq<int>, durs: seq<nat>)
    requires |ops| == 11 && |starts| == 11 && |durs| == 11
    requires ops[4] == Op(Gate("x"), [1], [], [0]) && starts[4] == 1500 && durs[4] == 100
    requires ops[5] == Op(Gate("x"), [0], [], [0]) && starts[5] == 1700 && durs[5] == 100
    requires ops[6] == Op(Delay(300), [0], [], []) && starts[6] == 1800 && durs[6] == 300
    requires ops[7] == Op(Gate("cx"), [1, 2], [], []) && starts[7] == 1600 && durs[7] == 200
    requires ops[8] == Op(Gate("x"), [0], [], []) && starts[8] == 2100 && durs[8] == 100
    requires ops[9] == Op(Gate("cx"), [0, 1], [], [0]) && starts[9] == 2200 && durs[9] == 200
    requires ops[10] == Op(Measure, [2], [0], []) && starts[10] == 2100 && durs[10] == 1000
    requires Get(cur, Qubit(0)) == 300 && Get(cur, Qubit(1)) == 300 && Get(cur, Qubit(2)) == 1300
    ensures var r := PadFrom(PadState(cur, o), ops[4..], starts[4..], durs[4..], None);
      r.out == (((((o + [Idle(1, 300, 1500), Timed(Op(Gate("x"), [1], [], [0]), 1500, 100)]) + [Idle(0, 300, 1700), Timed(Op(Gate("x"), [0], [], [0]), 1700, 100)]) + [Idle(2, 1300, 1600), Timed(Op(Gate("cx"), [1, 2], [], []), 1600, 200)]) + [Idle(0, 1800, 2100), Timed(Op(Gate("x"), [0], [], []), 2100, 100)]) + [Idle(1, 1800, 2200), Timed(Op(Gate("cx"), [0, 1], [], [0]), 2200, 200)]) + [Idle(2, 1800, 2100), Timed(Op(Measure, [2], [0], []), 2100, 1000)] && Get(r.cursor, Qubit(0)) == 2400 && Get(r.cursor, Qubit(1)) == 2400 && Get(r.cursor, Qubit(2)) == 3100
  {
    PadFromAt(PadState(cur, o), ops, starts, durs, None, 4);
    var s4 := PlaceOp(PadState(cur, []), ops[4], starts[4], durs[4], None);
    assert s4.out == [Idle(1, 300, 1500), Timed(Op(Gate("x"), [1], [], [0]), 1500, 100)] && Get(s4.cursor, Qubit(0)) == 300 && Get(s4.cursor, Qubit(1)) == 1600 && Get(s4.cursor, Qubit(2)) == 1300;
    PlaceOpOut(cur, o, ops[4], starts[4], durs[4], None);
    RandomAsapPadFrom5(s4.cursor, o + [Idle(1, 300, 1500), Timed(Op(Gate("x"), [1], [], [0]), 1500, 100)], ops, starts, durs);
  }

  /** Padding from instruction 5 on, given each qubit's cursor. */
  lemma RandomAsapPadFrom5(cur: Avail, o: seq<Timed>, ops: seq<Op>, starts: seq<int>, durs: seq<nat>)
    requires |ops| == 11 && |starts| == 11 && |durs| == 11
    requires ops[5] == Op(Gate("x"), [0], [], [0]) && starts[5] == 1700 && durs[5] == 100
    requires ops[6] == Op(Delay(300), [0], [], []) && starts[6] == 1800 && durs[6] == 300
    requires ops[7] == Op(Gate("cx"), [1, 2], [], []) && starts[7] == 1600 && durs[7] == 200
    requires ops[8] == Op(Gate("x"), [0], [], []) && starts[8] == 2100 && durs[8] == 100
    requires ops[9] == Op(Gate("cx"), [0, 1], [], [0]) && starts[9] == 2200 && durs[9] == 200
    requires ops[10] == Op(Measure, [2], [0], []) && starts[10] == 2100 && durs[10] == 1000
    requires Get(cur, Qubit(0)) == 300 && Get(cur, Qubit(1)) == 1600 && Get(cur, Qubit(2)) == 1300
    ensures var r := PadFrom(PadState(cur, o), ops[5..], starts[5..], durs[5..], None);
      r.out == ((((o + [Idle(0, 300, 1700), Timed(Op(Gate("x"), [0], [], [0]), 1700, 100)]) + [Idle(2, 1300, 1600), Timed(Op(Gate("cx"), [1, 2], [], []), 1600, 200)]) + [Idle(0, 1800, 2100), Timed(Op(Gate("x"), [0], [], []), 2100, 100)]) + [Idle(1, 1800, 2200), Timed(Op(Gate("cx"), [0, 1], [], [0]), 2200, 200)]) + [Idle(2, 1800, 2100), Timed(Op(Measure, [2], [0], []), 2100, 1000)] && Get(r.cursor, Qubit(0)) == 2400 && Get(r.cursor, Qubit(1)) == 2400 && Get(r.cursor, Qubit(2)) == 3100
  {
    PadFromAt(PadState(cur, o), ops, starts, durs, None, 5);
    var s5 := PlaceOp(PadState(cur, []), ops[5], starts[5], durs[5], None);
    assert s5.out == [Idle(0, 300, 1700), Timed(Op(Gate("x"), [0], [], [0]), 1700, 100)] && Get(s5.cursor, Qubit(0)) == 1800 && Get(s5.cursor, Qubit(1)) == 1600 && Get(s5.cursor, Qubit(2)) == 1300;
    PlaceOpOut(cur, o, ops[5], starts[5], durs[5], None);
    RandomAsapPadFrom6(s5.cursor, o + [Idle(0, 300, 1700), Timed(Op(Gate("x"), [0], [], [0]), 1700, 100)], ops, starts, durs);
  }

  /** Padding from instruction 6 on, given each qubit's cursor. */
  lemma RandomAsapPadFrom6(cur: Avail, o: seq<Timed>, ops: seq<Op>, starts: seq<int>, durs: seq<nat>)
    requires |ops| == 11 && |starts| == 11 && |durs| == 11
    requires ops[6] == Op(Delay(300), [0], [], []) && starts[6] == 1800 && durs[6] == 300
    requires ops[7] == Op(Gate("cx"), [1, 2], [], []) && starts[7] == 1600 && durs[7] == 200
    requires ops[8] == Op(Gate("x"), [0], [], []) && starts[8] == 2100 && durs[8] == 100
    requires ops[9] == Op(Gate("cx"), [0, 1], [], [0]) && starts[9] == 2200 && durs[9] == 200
    requires ops[10] == Op(Measure, [2], [0], []) && starts[10] == 2100 && durs[10] == 1000
    requires Get(cur, Qubit(0)) == 1800 && Get(cur, Qubit(1)) == 1600 && Get(cur, Qubit(2)) == 1300
    ensures var r := PadFrom(PadState(cur, o), ops[6..], starts[6..], durs[6..], None);
      r.out == (((o + [Idle(2, 1300, 1600), Timed(Op(Gate("cx"), [1, 2], [], []), 1600, 200)]) + [Idle(0, 1800, 2100), Timed(Op(Gate("x"), [0], [], []), 2100, 100)]) + [Idle(1, 1800, 2200), Timed(Op(Gate("cx"), [0, 1], [], [0]), 2200, 200)]) + [Idle(2, 1800, 2100), Timed(Op(Measure, [2], [0], []), 2100, 1000)] && Get(r.cursor, Qubit(0)) == 2400 && Get(r.cursor, Qubit(1)) == 2400 && Get(r.cursor, Qubit(2)) == 3100
  {
    PadFromAt(PadState(cur, o), ops, starts, durs, None, 6);
    RandomAsapPadFrom7(cur, o, ops, starts, durs);
  }

  /** Padding from instruction 7 on, given each qubit's cursor. */
  lemma RandomAsapPadFrom7(cur: Avail, o: seq<Timed>, ops: seq<Op>, starts: seq<int>, durs: seq<nat>)
    requires |ops| == 11 && |starts| == 11 && |durs| == 11
    requires ops[7] == Op(Gate("cx"), [1, 2], [], []) && starts[7] == 1600 && durs[7] == 200
    requires ops[8] == Op(Gate("x"), [0], [], []) && starts[8] == 2100 && durs[8] == 100
    requires ops[9] == Op(Gate("cx"), [0, 1], [], [0]) && starts[9] == 2200 && durs[9] == 200
    requires ops[10] == Op(Measure, [2], [0], []) && starts[10] == 2100 && durs[10] == 1000
    requires Get(cur, Qubit(0)) == 1800 && Get(cur, Qubit(1)) == 1600 && Get(cur, Qubit(2)) == 1300
    ensures var r := PadFrom(PadState(cur, o), ops[7..], starts[7..], durs[7..], None);
      r.out == (((o + [Idle(2, 1300, 1600), Timed(Op(Gate("cx"), [1, 2], [], []), 1600, 200)]) + [Idle(0, 1800, 2100), Timed(Op(Gate("x"), [0], [], []), 2100, 100)]) + [Idle(1, 1800, 2200), Timed(Op(Gate("cx"), [0, 1], [], [0]), 2200, 200)]) + [Idle(2, 1800, 2100), Timed(Op(Measure, [2], [0], []), 2100, 1000)] && Get(r.cursor, Qubit(0)) == 2400 && Get(r.cursor, Qubit(1)) == 2400 && Get(r.cursor, Qubit(2)) == 3100
  {
    PadFromAt(PadState(cur, o), ops, starts, durs, None, 7);
    var s7 := PlaceOp(PadState(cur, []), ops[7], starts[7], durs[7], None);
    assert s7.out == [Idle(2, 1300, 1600), Timed(Op(Gate("cx"), [1, 2], [], []), 1600, 200)] && Get(s7.cursor, Qubit(0)) == 1800 && Get(s7.cursor, Qubit(1)) == 1800 && Get(s7.cursor, Qubit(2)) == 1800;
    PlaceOpOut(cur, o, ops[7], starts[7], durs[7], None);
    RandomAsapPadFrom8(s7.cursor, o + [Idle(2, 1300, 1600), Timed(Op(Gate("cx"), [1, 2], [], []), 1600, 200)], ops, starts, durs);
  }

  /** Padding from instruction 8 on, given each qubit's cursor. */
  lemma RandomAsapPadFrom8(cur: Avail, o: seq<Timed>, ops: seq<Op>, starts: seq<int>, durs: seq<nat>)
    requires |ops| == 11 && |starts| == 11 && |durs| == 11
    requires ops[8] == Op(Gate("x"), [0], [], []) && starts[8] == 2100 && durs[8] == 100
    requires ops[9] == Op(Gate("cx"), [0, 1], [], [0]) && starts[9] == 2200 && durs[9] == 200
    requires ops[10] == Op(Measure, [2], [0], []) && starts[10] == 2100 && durs[10] == 1000
    requires Get(cur, Qubit(0)) == 1800 && Get(cur, Qubit(1)) == 1800 && Get(cur, Qubit(2)) == 1800
    ensures var r := PadFrom(PadState(cur, o), ops[8..], starts[8..], durs[8..], None);
      r.out == ((o + [Idle(0, 1800, 2100), Timed(Op(Gate("x"), [0], [], []), 2100, 100)]) + [Idle(1, 1800, 2200), Timed(Op(Gate("cx"), [0, 1], [], [0]), 2200, 200)]) + [Idle(2, 1800, 2100), Timed(Op(Measure, [2], [0], []), 2100, 1000)] && Get(r.cursor, Qubit(0)) == 2400 && Get(r.cursor, Qubit(1)) == 2400 && Get(r.cursor, Qubit(2)) == 3100
  {
    PadFromAt(PadState(cur, o), ops, starts, durs, None, 8);
    var s8 := PlaceOp(PadState(cur, []), ops[8], starts[8], durs[8], None);
    assert s8.out == [Idle(0, 1800, 2100), Timed(Op(Gate("x"), [0], [], []), 2100, 100)] && Get(s8.cursor, Qubit(0)) == 2200 && Get(s8.cursor, Qubit(1)) == 1800 && Get(s8.cursor, Qubit(2)) == 1800;
    PlaceOpOut(cur, o, ops[8], starts[8], durs[8], None);
    RandomAsapPadFrom9(s8.cursor, o + [Idle(0, 1800, 2100), Timed(Op(Gate("x"), [0], [], []), 2100, 100)], ops, starts, durs);
  }

  /** Padding from instruction 9 on, given each qubit's cursor. */
  lemma RandomAsapPadFrom9(cur: Avail, o: seq<Timed>, ops: seq<Op>, starts: seq<int>, durs: seq<nat>)
    requires |ops| == 11 && |starts| == 11 && |durs| == 11
    requires ops[9] == Op(Gate("cx"), [0, 1], [], [0]) && starts[9] == 2200 && durs[9] == 200
    requires ops[10] == Op(Measure, [2], [0], []) && starts[10] == 2100 && durs[10] == 1000
    requires Get(cur, Qubit(0)) == 2200 && Get(cur, Qubit(1)) == 1800 && Get(cur, Qubit(2)) == 1800
    ensures var r := PadFrom(PadState(cur, o), ops[9..], starts[9..], durs[9..], None);
      r.out == (o + [Idle(1, 1800, 2200), Timed(Op(Gate("cx"), [0, 1], [], [0]), 2200, 200)]) + [Idle(2, 1800, 2100), Timed(Op(Measure, [2], [0], []), 2100, 1000)] && Get(r.cursor, Qubit(0)) == 2400 && Get(r.cursor, Qubit(1)) == 2400 && Get(r.cursor, Qubit(2)) == 3100
  {
    PadFromAt(PadState(cur, o), ops, starts, durs, None, 9);
    var s9 := PlaceOp(PadState(cur, []), ops[9], starts[9], durs[9], None);
    assert s9.out == [Idle(1, 1800, 2200), Timed(Op(Gate("cx"), [0, 1], [], [0]), 2200, 200)] && Get(s9.cursor, Qubit(0)) == 2400 && Get(s9.cursor, Qubit(1)) == 2400 && Get(s9.cursor, Qubit(2)) == 1800;
    PlaceOpOut(cur, o, ops[9], starts[9], durs[9], None);
    RandomAsapPadFrom10(s9.cursor, o + [Idle(1, 1800, 2200), Timed(Op(Gate("cx"), [0, 1], [], [0]), 2200, 200)], ops, starts, durs);
  }

  /** Padding from instruction 10 on, given each qubit's cursor. */
  lemma RandomAsapPadFrom10(cur: Avail, o: seq<Timed>, ops: seq<Op>, starts: seq<int>, durs: seq<nat>)
    requires |ops| == 11 && |starts| == 11 && |durs| == 11
    requires ops[10] == Op(Measure, [2], [0], []) && starts[10] == 2100 && durs[10] == 1000
    requires Get(cur, Qubit(0)) == 2400 && Get(cur, Qubit(1)) == 2400 && Get(cur, Qubit(2)) == 1800
    ensures var r := PadFrom(PadState(cur, o), ops[10..], starts[10..], durs[10..], None);
      r.out == o + [Idle(2, 1800, 2100), Timed(Op(Measure, [2], [0], []), 2100, 1000)] && Get(r.cursor, Qubit(0)) == 2400 && Get(r.cursor, Qubit(1)) == 2400 && Get(r.cursor, Qubit(2)) == 3100
  {
    PadFromAt(PadState(cur, o), ops, starts, durs, None, 10);
    var s10 := PlaceOp(PadState(cur, []), ops[10], starts[10], durs[10], None);
    assert s10.out == [Idle(2, 1800, 2100), Timed(Op(Measure, [2], [0], []), 2100, 1000)] && Get(s10.cursor, Qubit(0)) == 2400 && Get(s10.cursor, Qubit(1)) == 2400 && Get(s10.cursor, Qubit(2)) == 3100;
    PlaceOpOut(cur, o, ops[10], starts[10], durs[10], None);
    assert ops[11..] == [] && starts[11..] == [] && durs[11..] == [];
  }

  /** The latest end of any instruction. */
  lemma RandomAsapPadLatestEnd(starts: seq<int>, durs: seq<nat>)
    requires starts == [0, 200, 300, 300, 1500, 1700, 1800, 1600, 2100, 2200, 2100] && |durs| == 11
    requires durs[0] == 100
    requires durs[1] == 100
    requires durs[2] == 0
    requires durs[3] == 1000
    requires durs[4] == 100
    requires durs[5] == 100
    requires durs[6] == 300
    requires durs[7] == 200
    requires durs[8] == 100
    requires durs[9] == 200
    requires durs[10] == 1000
    ensures LatestEnd(starts, durs) == 3100
  {
  }

  /** The delays after the last instruction. */
  lemma RandomAsapPadEndGaps(cur: Avail)
    requires Get(cur, Qubit(0)) == 2400 && Get(cur, Qubit(1)) == 2400 && Get(cur, Qubit(2)) == 3100
    ensures EndGaps(cur, 3, 3100, None) == [Idle(0, 2400, 3100), Idle(1, 2400, 3100)]
  {
    assert true && EndGaps(cur, 1, 3100, None) == [Idle(0, 2400, 3100)] && EndGaps(cur, 2, 3100, None) == [Idle(0, 2400, 3100), Idle(1, 2400, 3100)];
  }

  /** The padded instructions in order. */
  lemma RandomAsapPaddedOut(body: seq<Timed>, tail: seq<Timed>)
    requires body == (((((((([] + [Idle(0, 0, 200), Timed(Op(Gate("x"), [0], [], [0]), 200, 100)]) + [Idle(1, 0, 300), Idle(2, 0, 300), Timed(Op(Barrier, [0, 1, 2], [], []), 300, 0)]) + [Timed(Op(Measure, [2], [0], []), 300, 1000)]) + [Idle(1, 300, 1500), Timed(Op(Gate("x"), [1], [], [0]), 1500, 100)]) + [Idle(0, 300, 1700), Timed(Op(Gate("x"), [0], [], [0]), 1700, 100)]) + [Idle(2, 1300, 1600), Timed(Op(Gate("cx"), [1, 2], [], []), 1600, 200)]) + [Idle(0, 1800, 2100), Timed(Op(Gate("x"), [0], [], []), 2100, 100)]) + [Idle(1, 1800, 2200), Timed(Op(Gate("cx"), [0, 1], [], [0]), 2200, 200)]) + [Idle(2, 1800, 2100), Timed(Op(Measure, [2], [0], []), 2100, 1000)] && tail == [Idle(0, 2400, 3100), Idle(1, 2400, 3100)]
    ensures body + tail == [Idle(0, 0, 200), Timed(Op(Gate("x"), [0], [], [0]), 200, 100), Idle(1, 0, 300), Idle(2, 0, 300), Timed(Op(Barrier, [0, 1, 2], [], []), 300, 0), Timed(Op(Measure, [2], [0], []), 300, 1000), Idle(1, 300, 1500), Timed(Op(Gate("x"), [1], [], [0]), 1500, 100), Idle(0, 300, 1700), Timed(Op(Gate("x"), [0], [], [0]), 1700, 100), Idle(2, 1300, 1600), Timed(Op(Gate("cx"), [1, 2], [], []), 1600, 200), Idle(0, 1800, 2100), Timed(Op(Gate("x"), [0], [], []), 2100, 100), Idle(1, 1800, 2200), Timed(Op(Gate("cx"), [0, 1], [], [0]), 2200, 200), Idle(2, 1800, 2100), Timed(Op(Measure, [2], [0], []), 2100, 1000), Idle(0, 2400, 3100), Idle(1, 2400, 3100)]
  {
  }

  /** Padding the ASAP schedule gives these instructions, in this order, and the duration 3100. */
  lemma RandomAsapPadded(c: Circuit, durs: seq<nat>)
    requires c.numQubits == 3 && c.numClbits == 1 && |c.ops| == 11 && |durs| == 11
    requires c.ops[0] == Op(Delay(100), [0], [], []) && durs[0] == 100
    requires c.ops[1] == Op(Gate("x"), [0], [], [0]) && durs[1] == 100
    requires c.ops[2] == Op(Barrier, [0, 1, 2], [], []) && durs[2] == 0
    requires c.ops[3] == Op(Measure, [2], [0], []) && durs[3] == 1000
    requires c.ops[4] == Op(Gate("x"), [1], [], [0]) && durs[4] == 100
    requires c.ops[5] == Op(Gate("x"), [0], [], [0]) && durs[5] == 100
    requires c.ops[6] == Op(Delay(300), [0], [], []) && durs[6] == 300
    requires c.ops[7] == Op(Gate("cx"), [1, 2], [], []) && durs[7] == 200
    requires c.ops[8] == Op(Gate("x"), [0], [], []) && durs[8] == 100
    requires c.ops[9] == Op(Gate("cx"), [0, 1], [], [0]) && durs[9] == 200
    requires c.ops[10] == Op(Measure, [2], [0], []) && durs[10] == 1000
    ensures Pad(c, Some(StartTimes(Asap.Schedule(c, durs, IOLatency(200, 100)))), durs, None, true) == Success(Padded([Idle(0, 0, 200), Timed(Op(Gate("x"), [0], [], [0]), 200, 100), Idle(1, 0, 300), Idle(2, 0, 300), Timed(Op(Barrier, [0, 1, 2], [], []), 300, 0), Timed(Op(Measure, [2], [0], []), 300, 1000), Idle(1, 300, 1500), Timed(Op(Gate("x"), [1], [], [0]), 1500, 100), Idle(0, 300, 1700), Timed(Op(Gate("x"), [0], [], [0]), 1700, 100), Idle(2, 1300, 1600), Timed(Op(Gate("cx"), [1, 2], [], []), 1600, 200), Idle(0, 1800, 2100), Timed(Op(Gate("x"), [0], [], []), 2100, 100), Idle(1, 1800, 2200), Timed(Op(Gate("cx"), [0, 1], [], [0]), 2200, 200), Idle(2, 1800, 2100), Timed(Op(Measure, [2], [0], []), 2100, 1000), Idle(0, 2400, 3100), Idle(1, 2400, 3100)], 3100))
  {
    RandomAsap(c, durs);
    var s := Timing.Schedule([0, 200, 300, 300, 1500, 1700, 1800, 1600, 2100, 2200, 2100], durs, 3100);
    RandomAsapPadFrom0(map[], [], c.ops, s.starts, durs);
    assert c.ops[0..] == c.ops && s.starts[0..] == s.starts && durs[0..] == durs;
    var st := PadFrom(PadState(map[], []), c.ops, s.starts, durs, None);
    RandomAsapPadLatestEnd(s.starts, durs);
    PadOfSchedule(c, s, None, true, st, 3100);
    RandomAsapPadEndGaps(st.cursor);
    RandomAsapPaddedOut(st.out, [Idle(0, 2400, 3100), Idle(1, 2400, 3100)]);
  }

  /** Padding from instruction 0 on, given each qubit's cursor. */
  lemma RandomAlapPadFrom0(cur: Avail, o: seq<Timed>, ops: seq<Op>, starts: seq<int>, durs: seq<nat>)
    requires |ops| == 11 && |starts| == 11 && |durs| == 11
    requires ops[0] == Op(Delay(100), [0], [], []) && starts[0] == 100 && durs[0] == 100
    requires ops[1] == Op(Gate("x"), [0], [], [0]) && starts[1] == 200 && durs[1] == 100
    requires ops[2] == Op(Barrier, [0, 1, 2], [], []) && starts[2] == 300 && durs[2] == 0
    requires ops[3] == Op(Measure, [2], [0], []) && starts[3] == 300 && durs[3] == 1000
    requires ops[4] == Op(Gate("x"), [1], [], [0]) && starts[4] == 1500 && durs[4] == 100
    requires ops[5] == Op(Gate("x"), [0], [], [0]) && starts[5] == 1700 && durs[5] == 100
    requires ops[6] == Op(Delay(300), [0], [], []) && starts[6] == 1800 && durs[6] == 300
    requires ops[7] == Op(Gate("cx"), [1, 2], [], []) && starts[7] == 1900 && durs[7] == 200
    requires ops[8] == Op(Gate("x"), [0], [], []) && starts[8] == 2100 && durs[8] == 100
    requires ops[9] == Op(Gate("cx"), [0, 1], [], [0]) && starts[9] == 2200 && durs[9] == 200
    requires ops[10] == Op(Measure, [2], [0], []) && starts[10] == 2100 && durs[10] == 1000
    requires Get(cur, Qubit(0)) == 0 && Get(cur, Qubit(1)) == 0 && Get(cur, Qubit(2)) == 0
    ensures var r := PadFrom(PadState(cur, o), ops[0..], starts[0..], durs[0..], None);
      r.out == ((((((((o + [Idle(0, 0, 200), Timed(Op(Gate("x"), [0], [], [0]), 200, 100)]) + [Idle(1, 0, 300), Idle(2, 0, 300), Timed(Op(Barrier, [0, 1, 2], [], []), 300, 0)]) + [Timed(Op(Measure, [2], [0], []), 300, 1000)]) + [Idle(1, 300, 1500), Timed(Op(Gate("x"), [1], [], [0]), 1500, 100)]) + [Idle(0, 300, 1700), Timed(Op(Gate("x"), [0], [], [0]), 1700, 100)]) + [Idle(1, 1600, 1900), Idle(2, 1300, 1900), Timed(Op(Gate("cx"), [1, 2], [], []), 1900, 200)]) + [Idle(0, 1800, 2100), Timed(Op(Gate("x"), [0], [], []), 2100, 100)]) + [Idle(1, 2100, 2200), Timed(Op(Gate("cx"), [0, 1], [], [0]), 2200, 200)]) + [Timed(Op(Measure, [2], [0], []), 2100, 1000)] && Get(r.cursor, Qubit(0)) == 2400 && Get(r.cursor, Qubit(1)) == 2400 && Get(r.cursor, Qubit(2)) == 3100
  {
    PadFromAt(PadState(cur, o), ops, starts, durs, None, 0);
    RandomAlapPadFrom1(cur, o, ops, starts, durs);
  }

  /** Padding from instruction 1 on, given each qubit's cursor. */
  lemma RandomAlapPadFrom1(cur: Avail, o: seq<Timed>, ops: seq<Op>, starts: seq<int>, durs: seq<nat>)
    requires |ops| == 11 && |starts| == 11 && |durs| == 11
    requires ops[1] == Op(Gate("x"), [0], [], [0]) && starts[1] == 200 && durs[1] == 100
    requires ops[2] == Op(Barrier, [0, 1, 2], [], []) && starts[2] == 300 && durs[2] == 0
    requires ops[3] == Op(Measure, [2], [0], []) && starts[3] == 300 && durs[3] == 1000
    requires ops[4] == Op(Gate("x"), [1], [], [0]) && starts[4] == 1500 && durs[4] == 100
    requires ops[5] == Op(Gate("x"), [0], [], [0]) && starts[5] == 1700 && durs[5] == 100
    requires ops[6] == Op(Delay(300), [0], [], []) && starts[6] == 1800 && durs[6] == 300
    requires ops[7] == Op(Gate("cx"), [1, 2], [], []) && starts[7] == 1900 && durs[7] == 200
    requires ops[8] == Op(Gate("x"), [0], [], []) && starts[8] == 2100 && durs[8] == 100
    requires ops[9] == Op(Gate("cx"), [0, 1], [], [0]) && starts[9] == 2200 && durs[9] == 200
    requires ops[10] == Op(Measure, [2], [0], []) && starts[10] == 2100 && durs[10] == 1000
    requires Get(cur, Qubit(0)) == 0 && Get(cur, Qubit(1)) == 0 && Get(cur, Qubit(2)) == 0
    ensures var r := PadFrom(PadState(cur, o), ops[1..], starts[1..], durs[1..], None);
      r.out == ((((((((o + [Idle(0, 0, 200), Timed(Op(Gate("x"), [0], [], [0]), 200, 100)]) + [Idle(1, 0, 300), Idle(2, 0, 300), Timed(Op(Barrier, [0, 1, 2], [], []), 300, 0)]) + [Timed(Op(Measure, [2], [0], []), 300, 1000)]) + [Idle(1, 300, 1500), Timed(Op(Gate("x"), [1], [], [0]), 1500, 100)]) + [Idle(0, 300, 1700), Timed(Op(Gate("x"), [0], [], [0]), 1700, 100)]) + [Idle(1, 1600, 1900), Idle(2, 1300, 1900), Timed(Op(Gate("cx"), [1, 2], [], []), 1900, 200)]) + [Idle(0, 1800, 2100), Timed(Op(Gate("x"), [0], [], []), 2100, 100)]) + [Idle(1, 2100, 2200), Timed(Op(Gate("cx"), [0, 1], [], [0]), 2200, 200)]) + [Timed(Op(Measure, [2], [0], []), 2100, 1000)] && Get(r.cursor, Qubit(0)) == 2400 && Get(r.cursor, Qubit(1)) == 2400 && Get(r.cursor, Qubit(2)) == 3100
  {
    PadFromAt(PadState(cur, o), ops, starts, durs, None, 1);
    var s1 := PlaceOp(PadState(cur, []), ops[1], starts[1], durs[1], None);
    assert s1.out == [Idle(0, 0, 200), Timed(Op(Gate("x"), [0], [], [0]), 200, 100)] && Get(s1.cursor, Qubit(0)) == 300 && Get(s1.cursor, Qubit(1)) == 0 && Get(s1.cursor, Qubit(2)) == 0;
    PlaceOpOut(cur, o, ops[1], starts[1], durs[1], None);
    RandomAlapPadFrom2(s1.cursor, o + [Idle(0, 0, 200), Timed(Op(Gate("x"), [0], [], [0]), 200, 100)], ops, starts, durs);
  }

  /** Padding from instruction 2 on, given each qubit's cursor. */
  lemma RandomAlapPadFrom2(cur: Avail, o: seq<Timed>, ops: seq<Op>, starts: seq<int>, durs: seq<nat>)
    requires |ops| == 11 && |starts| == 11 && |durs| == 11
    requires ops[2] == Op(Barrier, [0, 1, 2], [], []) && starts[2] == 300 && durs[2] == 0
    requires ops[3] == Op(Measure, [2], [0], []) && starts[3] == 300 && durs[3] == 1000
    requires ops[4] == Op(Gate("x"), [1], [], [0]) && starts[4] == 1500 && durs[4] == 100
    requires ops[5] == Op(Gate("x"), [0], [], [0]) && starts[5] == 1700 && durs[5] == 100
    requires ops[6] == Op(Delay(300), [0], [], []) && starts[6] == 1800 && durs[6] == 300
    requires ops[7] == Op(Gate("cx"), [1, 2], [], []) && starts[7] == 1900 && durs[7] == 200
    requires ops[8] == Op(Gate("x"), [0], [], []) && starts[8] == 2100 && durs[8] == 100
    requires ops[9] == Op(Gate("cx"), [0, 1], [], [0]) && starts[9] == 2200 && durs[9] == 200
    requires ops[10] == Op(Measure, [2], [0], []) && starts[10] == 2100 && durs[10] == 1000
    requires Get(cur, Qubit(0)) == 300 && Get(cur, Qubit(1)) == 0 && Get(cur, Qubit(2)) == 0
    ensures var r := PadFrom(PadState(cur, o), ops[2..], starts[2..], durs[2..], None);
      r.out == (((((((o + [Idle(1, 0, 300), Idle(2, 0, 300), Timed(Op(Barrier, [0, 1, 2], [], []), 300, 0)]) + [Timed(Op(Measure, [2], [0], []), 300, 1000)]) + [Idle(1, 300, 1500), Timed(Op(Gate("x"), [1], [], [0]), 1500, 100)]) + [Idle(0, 300, 1700), Timed(Op(Gate("x"), [0], [], [0]), 1700, 100)]) + [Idle(1, 1600, 1900), Idle(2, 1300, 1900), Timed(Op(Gate("cx"), [1, 2], [], []), 1900, 200)]) + [Idle(0, 1800, 2100), Timed(Op(Gate("x"), [0], [], []), 2100, 100)]) + [Idle(1, 2100, 2200), Timed(Op(Gate("cx"), [0, 1], [], [0]), 2200, 200)]) + [Timed(Op(Measure, [2], [0], []), 2100, 1000)] && Get(r.cursor, Qubit(0)) == 2400 && Get(r.cursor, Qubit(1)) == 2400 && Get(r.cursor, Qubit(2)) == 3100
  {
    PadFromAt(PadState(cur, o), ops, starts, durs, None, 2);
    var s2 := PlaceOp(PadState(cur, []), ops[2], starts[2], durs[2], None);
    assert s2.out == [Idle(1, 0, 300), Idle(2, 0, 300), Timed(Op(Barrier, [0, 1, 2], [], []), 300, 0)] && Get(s2.cursor, Qubit(0)) == 300 && Get(s2.cursor, Qubit(1)) == 300 && Get(s2.cursor, Qubit(2)) == 300;
    PlaceOpOut(cur, o, ops[2], starts[2], durs[2], None);
    RandomAlapPadFrom3(s2.cursor, o + [Idle(1, 0, 300), Idle(2, 0, 300), Timed(Op(Barrier, [0, 1, 2], [], []), 300, 0)], ops, starts, durs);
  }

  /** Padding from instruction 3 on, given each qubit's cursor. */
  lemma RandomAlapPadFrom3(cur: Avail, o: seq<Timed>, ops: seq<Op>, starts: seq<int>, durs: seq<nat>)
    requires |ops| == 11 && |starts| == 11 && |durs| == 11
    requires ops[3] == Op(Measure, [2], [0], []) && starts[3] == 300 && durs[3] == 1000
    requires ops[4] == Op(Gate("x"), [1], [], [0]) && starts[4] == 1500 && durs[4] == 100
    requires ops[5] == Op(Gate("x"), [0], [], [0]) && starts[5] == 1700 && durs[5] == 100
    requires ops[6] == Op(Delay(300), [0], [], []) && starts[6] == 1800 && durs[6] == 300
    requires ops[7] == Op(Gate("cx"), [1, 2], [], []) && starts[7] == 1900 && durs[7] == 200
    requires ops[8] == Op(Gate("x"), [0], [], []) && starts[8] == 2100 && durs[8] == 100
    requires ops[9] == Op(Gate("cx"), [0, 1], [], [0]) && starts[9] == 2200 && durs[9] == 200
    requires ops[10] == Op(Measure, [2], [0], []) && starts[10] == 2100 && durs[10] == 1000
    requires Get(cur, Qubit(0)) == 300 && Get(cur, Qubit(1)) == 300 && Get(cur, Qubit(2)) == 300
    ensures var r := PadFrom(PadState(cur, o), ops[3..], starts[3..], durs[3..], None);
      r.out == ((((((o + [Timed(Op(Measure, [2], [0], []), 300, 1000)]) + [Idle(1, 300, 1500), Timed(Op(Gate("x"), [1], [], [0]), 1500, 100)]) + [Idle(0, 300, 1700), Timed(Op(Gate("x"), [0], [], [0]), 1700, 100)]) + [Idle(1, 1600, 1900), Idle(2, 1300, 1900), Timed(Op(Gate("cx"), [1, 2], [], []), 1900, 200)]) + [Idle(0, 1800, 2100), Timed(Op(Gate("x"), [0], [], []), 2100, 100)]) + [Idle(1, 2100, 2200), Timed(Op(Gate("cx"), [0, 1], [], [0]), 2200, 200)]) + [Timed(Op(Measure, [2], [0], []), 2100, 1000)] && Get(r.cursor, Qubit(0)) == 2400 && Get(r.cursor, Qubit(1)) == 2400 && Get(r.cursor, Qubit(2)) == 3100
  {
    PadFromAt(PadState(cur, o), ops, starts, durs, None, 3);
    var s3 := PlaceOp(PadState(cur, []), ops[3], starts[3], durs[3], None);
    assert s3.out == [Timed(Op(Measure, [2], [0], []), 300, 1000)] && Get(s3.cursor, Qubit(0)) == 300 && Get(s3.cursor, Qubit(1)) == 300 && Get(s3.cursor, Qubit(2)) == 1300;
    PlaceOpOut(cur, o, ops[3], starts[3], durs[3], None);
    RandomAlapPadFrom4(s3.cursor, o + [Timed(Op(Measure, [2], [0], []), 300, 1000)], ops, starts, durs);
  }

  /** Padding from instruction 4 on, given each qubit's cursor. */
  lemma RandomAlapPadFrom4(cur: Avail, o: seq<Timed>, ops: seq<Op>, starts: seq<int>, durs: seq<nat>)
    requires |ops| == 11 && |starts| == 11 && |durs| == 11
    requires ops[4] == Op(Gate("x"), [1], [], [0]) && starts[4] == 1500 && durs[4] == 100
    requires ops[5] == Op(Gate("x"), [0], [], [0]) && starts[5] == 1700 && durs[5] == 100
    requires ops[6] == Op(Delay(300), [0], [], []) && starts[6] == 1800 && durs[6] == 300
    requires ops[7] == Op(Gate("cx"), [1, 2], [], []) && starts[7] == 1900 && durs[7] == 200
    requires ops[8] == Op(Gate("x"), [0], [], []) && starts[8] == 2100 && durs[8] == 100
    requires ops[9] == Op(Gate("cx"), [0, 1], [], [0]) && starts[9] == 2200 && durs[9] == 200
    requires ops[10] == Op(Measure, [2], [0], []) && starts[10] == 2100 && durs[10] == 1000
    requires Get(cur, Qubit(0)) == 300 && Get(cur, Qubit(1)) == 300 && Get(cur, Qubit(2)) == 1300
    ensures var r := PadFrom(PadState(cur, o), ops[4..], starts[4..], durs[4..], None);
      r.out == (((((o + [Idle(1, 300, 1500), Timed(Op(Gate("x"), [1], [], [0]), 1500, 100)]) + [Idle(0, 300, 1700), Timed(Op(Gate("x"), [0], [], [0]), 1700, 100)]) + [Idle(1, 1600, 1900), Idle(2, 1300, 1900), Timed(Op(Gate("cx"), [1, 2], [], []), 1900, 200)]) + [Idle(0, 1800, 2100), Timed(Op(Gate("x"), [0], [], []), 2100, 100)]) + [Idle(1, 2100, 2200), Timed(Op(Gate("cx"), [0, 1], [], [0]), 2200, 200)]) + [Timed(Op(Measure, [2], [0], []), 2100, 1000)] && Get(r.cursor, Qubit(0)) == 2400 && Get(r.cursor, Qubit(1)) == 2400 && Get(r.cursor, Qubit(2)) == 3100
  {
    PadFromAt(PadState(cur, o), ops, starts, durs, None, 4);
    var s4 := PlaceOp(PadState(cur, []), ops[4], starts[4], durs[4], None);
    assert s4.out == [Idle(1, 300, 1500), Timed(Op(Gate("x"), [1], [], [0]), 1500, 100)] && Get(s4.cursor, Qubit(0)) == 300 && Get(s4.cursor, Qubit(1)) == 1600 && Get(s4.cursor, Qubit(2)) == 1300;
    PlaceOpOut(cur, o, ops[4], starts[4], durs[4], None);
    RandomAlapPadFrom5(s4.cursor, o + [Idle(1, 300, 1500), Timed(Op(Gate("x"), [1], [], [0]), 1500, 100)], ops, starts, durs);
  }

  /** Padding from instruction 5 on, given each qubit's cursor. */
  lemma RandomAlapPadFrom5(cur: Avail, o: seq<Timed>, ops: seq<Op>, starts: seq<int>, durs: seq<nat>)
    requires |ops| == 11 && |starts| == 11 && |durs| == 11
    requires ops[5] == Op(Gate("x"), [0], [], [0]) && starts[5] == 1700 && durs[5] == 100
    requires ops[6] == Op(Delay(300), [0], [], []) && starts[6] == 1800 && durs[6] == 300
    requires ops[7] == Op(Gate("cx"), [1, 2], [], []) && starts[7] == 1900 && durs[7] == 200
    requires ops[8] == Op(Gate("x"), [0], [], []) && starts[8] == 2100 && durs[8] == 100
    requires ops[9] == Op(Gate("cx"), [0, 1], [], [0]) && starts[9] == 2200 && durs[9] == 200
    requires ops[10] == Op(Measure, [2], [0], []) && starts[10] == 2100 && durs[10] == 1000
    requires Get(cur, Qubit(0)) == 300 && Get(cur, Qubit(1)) == 1600 && Get(cur, Qubit(2)) == 1300
    ensures var r := PadFrom(PadState(cur, o), ops[5..], starts[5..], durs[5..], None);
      r.out == ((((o + [Idle(0, 300, 1700), Timed(Op(Gate("x"), [0], [], [0]), 1700, 100)]) + [Idle(1, 1600, 1900), Idle(2, 1300, 1900), Timed(Op(Gate("cx"), [1, 2], [], []), 1900, 200)]) + [Idle(0, 1800, 2100), Timed(Op(Gate("x"), [0], [], []), 2100, 100)]) + [Idle(1, 2100, 2200), Timed(Op(Gate("cx"), [0, 1], [], [0]), 2200, 200)]) + [Timed(Op(Measure, [2], [0], []), 2100, 1000)] && Get(r.cursor, Qubit(0)) == 2400 && Get(r.cursor, Qubit(1)) == 2400 && Get(r.cursor, Qubit(2)) == 3100
  {
    PadFromAt(PadState(cur, o), ops, starts, durs, None, 5);
    var s5 := PlaceOp(PadState(cur, []), ops[5], starts[5], durs[5], None);
    assert s5.out == [Idle(0, 300, 1700), Timed(Op(Gate("x"), [0], [], [0]), 1700, 100)] && Get(s5.cursor, Qubit(0)) == 1800 && Get(s5.cursor, Qubit(1)) == 1600 && Get(s5.cursor, Qubit(2)) == 1300;
    PlaceOpOut(cur, o, ops[5], starts[5], durs[5], None);
    RandomAlapPadFrom6(s5.cursor, o + [Idle(0, 300, 1700), Timed(Op(Gate("x"), [0], [], [0]), 1700, 100)], ops, starts, durs);
  }

  /** Padding from instruction 6 on, given each qubit's cursor. */
  lemma RandomAlapPadFrom6(cur: Avail, o: seq<Timed>, ops: seq<Op>, starts: seq<int>, durs: seq<nat>)
    requires |ops| == 11 && |starts| == 11 && |durs| == 11
    requires ops[6] == Op(Delay(300), [0], [], []) && starts[6] == 1800 && durs[6] == 300
    requires ops[7] == Op(Gate("cx"), [1, 2], [], []) && starts[7] == 1900 && durs[7] == 200
    requires ops[8] == Op(Gate("x"), [0], [], []) && starts[8] == 2100 && durs[8] == 100
    requires ops[9] == Op(Gate("cx"), [0, 1], [], [0]) && starts[9] == 2200 && durs[9] == 200
    requires ops[10] == Op(Measure, [2], [0], []) && starts[10] == 2100 && durs[10] == 1000
    requires Get(cur, Qubit(0)) == 1800 && Get(cur, Qubit(1)) == 1600 && Get(cur, Qubit(2)) == 1300
    ensures var r := PadFrom(PadState(cur, o), ops[6..], starts[6..], durs[6..], None);
      r.out == (((o + [Idle(1, 1600, 1900), Idle(2, 1300, 1900), Timed(Op(Gate("cx"), [1, 2], [], []), 1900, 200)]) + [Idle(0, 1800, 2100), Timed(Op(Gate("x"), [0], [], []), 2100, 100)]) + [Idle(1, 2100, 2200), Timed(Op(Gate("cx"), [0, 1], [], [0]), 2200, 200)]) + [Timed(Op(Measure, [2], [0], []), 2100, 1000)] && Get(r.cursor, Qubit(0)) == 2400 && Get(r.cursor, Qubit(1)) == 2400 && Get(r.cursor, Qubit(2)) == 3100
  {
    PadFromAt(PadState(cur, o), ops, starts, durs, None, 6);
    RandomAlapPadFrom7(cur, o, ops, starts, durs);
  }

  /** Padding from instruction 7 on, given each qubit's cursor. */
  lemma RandomAlapPadFrom7(cur: Avail, o: seq<Timed>, ops: seq<Op>, starts: seq<int>, durs: seq<nat>)
    requires |ops| == 11 && |starts| == 11 && |durs| == 11
    requires ops[7] == Op(Gate("cx"), [1, 2], [], []) && starts[7] == 1900 && durs[7] == 200
    requires ops[8] == Op(Gate("x"), [0], [], []) && starts[8] == 2100 && durs[8] == 100
    requires ops[9] == Op(Gate("cx"), [0, 1], [], [0]) && starts[9] == 2200 && durs[9] == 200
    requires ops[10] == Op(Measure, [2], [0], []) && starts[10] == 2100 && durs[10] == 1000
    requires Get(cur, Qubit(0)) == 1800 && Get(cur, Qubit(1)) == 1600 && Get(cur, Qubit(2)) == 1300
    ensures var r := PadFrom(PadState(cur, o), ops[7..], starts[7..], durs[7..], None);
      r.out == (((o + [Idle(1, 1600, 1900), Idle(2, 1300, 1900), Timed(Op(Gate("cx"), [1, 2], [], []), 1900, 200)]) + [Idle(0, 1800, 2100), Timed(Op(Gate("x"), [0], [], []), 2100, 100)]) + [Idle(1, 2100, 2200), Timed(Op(Gate("cx"), [0, 1], [], [0]), 2200, 200)]) + [Timed(Op(Measure, [2], [0], []), 2100, 1000)] && Get(r.cursor, Qubit(0)) == 2400 && Get(r.cursor, Qubit(1)) == 2400 && Get(r.cursor, Qubit(2)) == 3100
  {
    PadFromAt(PadState(cur, o), ops, starts, durs, None, 7);
    var s7 := PlaceOp(PadState(cur, []), ops[7], starts[7], durs[7], None);
    assert s7.out == [Idle(1, 1600, 1900), Idle(2, 1300, 1900), Timed(Op(Gate("cx"), [1, 2], [], []), 1900, 200)] && Get(s7.cursor, Qubit(0)) == 1800 && Get(s7.cursor, Qubit(1)) == 2100 && Get(s7.cursor, Qubit(2)) == 2100;
    PlaceOpOut(cur, o, ops[7], starts[7], durs[7], None);
    RandomAlapPadFrom8(s7.cursor, o + [Idle(1, 1600, 1900), Idle(2, 1300, 1900), Timed(Op(Gate("cx"), [1, 2], [], []), 1900, 200)], ops, starts, durs);
  }

  /** Padding from instruction 8 on, given each qubit's cursor. */
  lemma RandomAlapPadFrom8(cur: Avail, o: seq<Timed>, ops: seq<Op>, starts: seq<int>, durs: seq<nat>)
    requires |ops| == 11 && |starts| == 11 && |durs| == 11
    requires ops[8] == Op(Gate("x"), [0], [], []) && starts[8] == 2100 && durs[8] == 100
    requires ops[9] == Op(Gate("cx"), [0, 1], [], [0]) && starts[9] == 2200 && durs[9] == 200
    requires ops[10] == Op(Measure, [2], [0], []) && starts[10] == 2100 && durs[10] == 1000
    requires Get(cur, Qubit(0)) == 1800 && Get(cur, Qubit(1)) == 2100 && Get(cur, Qubit(2)) == 2100
    ensures var r := PadFrom(PadState(cur, o), ops[8..], starts[8..], durs[8..], None);
      r.out == ((o + [Idle(0, 1800, 2100), Timed(Op(Gate("x"), [0], [], []), 2100, 100)]) + [Idle(1, 2100, 2200), Timed(Op(Gate("cx"), [0, 1], [], [0]), 2200, 200)]) + [Timed(Op(Measure, [2], [0], []), 2100, 1000)] && Get(r.cursor, Qubit(0)) == 2400 && Get(r.cursor, Qubit(1)) == 2400 && Get(r.cursor, Qubit(2)) == 3100
  {
    PadFromAt(PadState(cur, o), ops, starts, durs, None, 8);
    var s8 := PlaceOp(PadState(cur, []), ops[8], starts[8], durs[8], None);
    assert s8.out == [Idle(0, 1800, 2100), Timed(Op(Gate("x"), [0], [], []), 2100, 100)] && Get(s8.cursor, Qubit(0)) == 2200 && Get(s8.cursor, Qubit(1)) == 2100 && Get(s8.cursor, Qubit(2)) == 2100;
    PlaceOpOut(cur, o, ops[8], starts[8], durs[8], None);
    RandomAlapPadFrom9(s8.cursor, o + [Idle(0, 1800, 2100), Timed(Op(Gate("x"), [0], [], []), 2100, 100)], ops, starts, durs);
  }

  /** Padding from instruction 9 on, given each qubit's cursor. */
  lemma RandomAlapPadFrom9(cur: Avail, o: seq<Timed>, ops: seq<Op>, starts: seq<int>, durs: seq<nat>)
    requires |ops| == 11 && |starts| == 11 && |durs| == 11
    requires ops[9] == Op(Gate("cx"), [0, 1], [], [0]) && starts[9] == 2200 && durs[9] == 200
    requires ops[10] == Op(Measure, [2], [0], []) && starts[10] == 2100 && durs[10] == 1000
    requires Get(cur, Qubit(0)) == 2200 && Get(cur, Qubit(1)) == 2100 && Get(cur, Qubit(2)) == 2100
    ensures var r := PadFrom(PadState(cur, o), ops[9..], starts[9..], durs[9..], None);
      r.out == (o + [Idle(1, 2100, 2200), Timed(Op(Gate("cx"), [0, 1], [], [0]), 2200, 200)]) + [Timed(Op(Measure, [2], [0], []), 2100, 1000)] && Get(r.cursor, Qubit(0)) == 2400 && Get(r.cursor, Qubit(1)) == 2400 && Get(r.cursor, Qubit(2)) == 3100
  {
    PadFromAt(PadState(cur, o), ops, starts, durs, None, 9);
    var s9 := PlaceOp(PadState(cur, []), ops[9], starts[9], durs[9], None);
    assert s9.out == [Idle(1, 2100, 2200), Timed(Op(Gate("cx"), [0, 1], [], [0]), 2200, 200)] && Get(s9.cursor, Qubit(0)) == 2400 && Get(s9.cursor, Qubit(1)) == 2400 && Get(s9.cursor, Qubit(2)) == 2100;
    PlaceOpOut(cur, o, ops[9], starts[9], durs[9], None);
    RandomAlapPadFrom10(s9.cursor, o + [Idle(1, 2100, 2200), Timed(Op(Gate("cx"), [0, 1], [], [0]), 2200, 200)], ops, starts, durs);
  }

  /** Padding from instruction 10 on, given each qubit's cursor. */
  lemma RandomAlapPadFrom10(cur: Avail, o: seq<Timed>, ops: seq<Op>, starts: seq<int>, durs: seq<nat>)
    requires |ops| == 11 && |starts| == 11 && |durs| == 11
    requires ops[10] == Op(Measure, [2], [0], []) && starts[10] == 2100 && durs[10] == 1000
    requires Get(cur, Qubit(0)) == 2400 && Get(cur, Qubit(1)) == 2400 && Get(cur, Qubit(2)) == 2100
    ensures var r := PadFrom(PadState(cur, o), ops[10..], starts[10..], durs[10..], None);
      r.out == o + [Timed(Op(Measure, [2], [0], []), 2100, 1000)] && Get(r.cursor, Qubit(0)) == 2400 && Get(r.cursor, Qubit(1)) == 2400 && Get(r.cursor, Qubit(2)) == 3100
  {
    PadFromAt(PadState(cur, o), ops, starts, durs, None, 10);
    var s10 := PlaceOp(PadState(cur, []), ops[10], starts[10], durs[10], None);
    assert s10.out == [Timed(Op(Measure, [2], [0], []), 2100, 1000)] && Get(s10.cursor, Qubit(0)) == 2400 && Get(s10.cursor, Qubit(1)) == 2400 && Get(s10.cursor, Qubit(2)) == 3100;
    PlaceOpOut(cur, o, ops[10], starts[10], durs[10], None);
    assert ops[11..] == [] && starts[11..] == [] && durs[11..] == [];
  }

  /** The latest end of any instruction. */
  lemma RandomAlapPadLatestEnd(starts: seq<int>, durs: seq<nat>)
    requires starts == [100, 200, 300, 300, 1500, 1700, 1800, 1900, 2100, 2200, 2100] && |durs| == 11
    requires durs[0] == 100
    requires durs[1] == 100
    requires durs[2] == 0
    requires durs[3] == 1000
    requires durs[4] == 100
    requires durs[5] == 100
    requires durs[6] == 300
    requires durs[7] == 200
    requires durs[8] == 100
    requires durs[9] == 200
    requires durs[10] == 1000
    ensures LatestEnd(starts, durs) == 3100
  {
  }

  /** The delays after the last instruction. */
  lemma RandomAlapPadEndGaps(cur: Avail)
    requires Get(cur, Qubit(0)) == 2400 && Get(cur, Qubit(1)) == 2400 && Get(cur, Qubit(2)) == 3100
    ensures EndGaps(cur, 3, 3100, None) == [Idle(0, 2400, 3100), Idle(1, 2400, 3100)]
  {
    assert true && EndGaps(cur, 1, 3100, None) == [Idle(0, 2400, 3100)] && EndGaps(cur, 2, 3100, None) == [Idle(0, 2400, 3100), Idle(1, 2400, 3100)];
  }

  /** The padded instructions in order. */
  lemma RandomAlapPaddedOut(body: seq<Timed>, tail: seq<Timed>)
    requires body == (((((((([] + [Idle(0, 0, 200), Timed(Op(Gate("x"), [0], [], [0]), 200, 100)]) + [Idle(1, 0, 300), Idle(2, 0, 300), Timed(Op(Barrier, [0, 1, 2], [], []), 300, 0)]) + [Timed(Op(Measure, [2], [0], []), 300, 1000)]) + [Idle(1, 300, 1500), Timed(Op(Gate("x"), [1], [], [0]), 1500, 100)]) + [Idle(0, 300, 1700), Timed(Op(Gate("x"), [0], [], [0]), 1700, 100)]) + [Idle(1, 1600, 1900), Idle(2, 1300, 1900), Timed(Op(Gate("cx"), [1, 2], [], []), 1900, 200)]) + [Idle(0, 1800, 2100), Timed(Op(Gate("x"), [0], [], []), 2100, 100)]) + [Idle(1, 2100, 2200), Timed(Op(Gate("cx"), [0, 1], [], [0]), 2200, 200)]) + [Timed(Op(Measure, [2], [0], []), 2100, 1000)] && tail == [Idle(0, 2400, 3100), Idle(1, 2400, 3100)]
    ensures body + tail == [Idle(0, 0, 200), Timed(Op(Gate("x"), [0], [], [0]), 200, 100), Idle(1, 0, 300), Idle(2, 0, 300), Timed(Op(Barrier, [0, 1, 2], [], []), 300, 0), Timed(Op(Measure, [2], [0], []), 300, 1000), Idle(1, 300, 1500), Timed(Op(Gate("x"), [1], [], [0]), 1500, 100), Idle(0, 300, 1700), Timed(Op(Gate("x"), [0], [], [0]), 1700, 100), Idle(1, 1600, 1900), Idle(2, 1300, 1900), Timed(Op(Gate("cx"), [1, 2], [], []), 1900, 200), Idle(0, 1800, 2100), Timed(Op(Gate("x"), [0], [], []), 2100, 100), Idle(1, 2100, 2200), Timed(Op(Gate("cx"), [0, 1], [], [0]), 2200, 200), Timed(Op(Measure, [2], [0], []), 2100, 1000), Idle(0, 2400, 3100), Idle(1, 2400, 3100)]
  {
  }

  /** Padding the ALAP schedule gives these instructions, in this order, and the duration 3100. */
  lemma RandomAlapPadded(c: Circuit, durs: seq<nat>)
    requires c.numQubits == 3 && c.numClbits == 1 && |c.ops| == 11 && |durs| == 11
    requires c.ops[0] == Op(Delay(100), [0], [], []) && durs[0] == 100
    requires c.ops[1] == Op(Gate("x"), [0], [], [0]) && durs[1] == 100
    requires c.ops[2] == Op(Barrier, [0, 1, 2], [], []) && durs[2] == 0
    requires c.ops[3] == Op(Measure, [2], [0], []) && durs[3] == 1000
    requires c.ops[4] == Op(Gate("x"), [1], [], [0]) && durs[4] == 100
    requires c.ops[5] == Op(Gate("x"), [0], [], [0]) && durs[5] == 100
    requires c.ops[6] == Op(Delay(300), [0], [], []) && durs[6] == 300
    requires c.ops[7] == Op(Gate("cx"), [1, 2], [], []) && durs[7] == 200
    requires c.ops[8] == Op(Gate("x"), [0], [], []) && durs[8] == 100
    requires c.ops[9] == Op(Gate("cx"), [0, 1], [], [0]) && durs[9] == 200
    requires c.ops[10] == Op(Measure, [2], [0], []) && durs[10] == 1000
    ensures Pad(c, Some(StartTimes(Alap.Schedule(c, durs, IOLatency(200, 100)))), durs, None, true) == Success(Padded([Idle(0, 0, 200), Timed(Op(Gate("x"), [0], [], [0]), 200, 100), Idle(1, 0, 300), Idle(2, 0, 300), Timed(Op(Barrier, [0, 1, 2], [], []), 300, 0), Timed(Op(Measure, [2], [0], []), 300, 1000), Idle(1, 300, 1500), Timed(Op(Gate("x"), [1], [], [0]), 1500, 100), Idle(0, 300, 1700), Timed(Op(Gate("x"), [0], [], [0]), 1700, 100), Idle(1, 1600, 1900), Idle(2, 1300, 1900), Timed(Op(Gate("cx"), [1, 2], [], []), 1900, 200), Idle(0, 1800, 2100), Timed(Op(Gate("x"), [0], [], []), 2100, 100), Idle(1, 2100, 2200), Timed(Op(Gate("cx"), [0, 1], [], [0]), 2200, 200), Timed(Op(Measure, [2], [0], []), 2100, 1000), Idle(0, 2400, 3100), Idle(1, 2400, 3100)], 3100))
  {
    RandomAlap(c, durs);
    var s := Timing.Schedule([100, 200, 300, 300, 1500, 1700, 1800, 1900, 2100, 2200, 2100], durs, 3100);
    RandomAlapPadFrom0(map[], [], c.ops, s.starts, durs);
    assert c.ops[0..] == c.ops && s.starts[0..] == s.starts && durs[0..] == durs;
    var st := PadFrom(PadState(map[], []), c.ops, s.starts, durs, None);
    RandomAlapPadLatestEnd(s.starts, durs);
    PadOfSchedule(c, s, None, true, st, 3100);
    RandomAlapPadEndGaps(st.cursor);
    RandomAlapPaddedOut(st.out, [Idle(0, 2400, 3100), Idle(1, 2400, 3100)]);
  }

  /** The duration of each instruction, as the scheduling passes look it up. */
  lemma RandomDurations(c: Circuit)
    requires |c.ops| == 11
    requires c.ops[0] == Op(Delay(100), [0], [], [])
    requires c.ops[1] == Op(Gate("x"), [0], [], [0])
    requires c.ops[2] == Op(Barrier, [0, 1, 2], [], [])
    requires c.ops[3] == Op(Measure, [2], [0], [])
    requires c.ops[4] == Op(Gate("x"), [1], [], [0])
    requires c.ops[5] == Op(Gate("x"), [0], [], [0])
    requires c.ops[6] == Op(Delay(300), [0], [], [])
    requires c.ops[7] == Op(Gate("cx"), [1, 2], [], [])
    requires c.ops[8] == Op(Gate("x"), [0], [], [])
    requires c.ops[9] == Op(Gate("cx"), [0, 1], [], [0])
    requires c.ops[10] == Op(Measure, [2], [0], [])
    ensures AllResolved(map[], FromEntries([Entry("x", None, 100), Entry("measure", None, 1000), Entry("cx", None, 200)]), c.ops) && DurationsOf(map[], FromEntries([Entry("x", None, 100), Entry("measure", None, 1000), Entry("cx", None, 200)]), c.ops) == [100, 100, 0, 1000, 100, 100, 300, 200, 100, 200, 1000]
  {
    var t := FromEntries([Entry("x", None, 100), Entry("measure", None, 1000), Entry("cx", None, 200)]);
    assert NodeDuration(map[], t, c.ops[0]) == Some(100);
    assert NodeDuration(map[], t, c.ops[1]) == Some(100);
    assert NodeDuration(map[], t, c.ops[2]) == Some(0);
    assert NodeDuration(map[], t, c.ops[3]) == Some(1000);
    assert NodeDuration(map[], t, c.ops[4]) == Some(100);
    assert NodeDuration(map[], t, c.ops[5]) == Some(100);
    assert NodeDuration(map[], t, c.ops[6]) == Some(300);
    assert NodeDuration(map[], t, c.ops[7]) == Some(200);
    assert NodeDuration(map[], t, c.ops[8]) == Some(100);
    assert NodeDuration(map[], t, c.ops[9]) == Some(200);
    assert NodeDuration(map[], t, c.ops[10]) == Some(1000);
    DurationsAre(map[], t, c.ops, [100, 100, 0, 1000, 100, 100, 300, 200, 100, 200, 1000]);
  }
}
