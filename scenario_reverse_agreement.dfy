/** A Hadamard, a delay, a CX and a final measure of every qubit behind a barrier:
    ALAP scheduling then padding agrees with ASAP scheduling then padding of the
    reversed circuit, read backwards. Durations come either from a duration table
    or from a target. */
module ReverseAgreement {
  import opened Circuits
  import opened Timing
  import opened Durations
  import opened Constraints
  import opened Padding
  import Asap
  import Alap
  import Duality

  /** The circuit is well formed. */
  lemma ForwardWellFormed(c: Circuit)
    requires c.numQubits == 2 && c.numClbits == 2 && |c.ops| == 6
    requires c.ops[0] == Op(Gate("h"), [0], [], [])
    requires c.ops[1] == Op(Delay(500), [1], [], [])
    requires c.ops[2] == Op(Gate("cx"), [0, 1], [], [])
    requires c.ops[3] == Op(Barrier, [0, 1], [], [])
    requires c.ops[4] == Op(Measure, [0], [0], [])
    requires c.ops[5] == Op(Measure, [1], [1], [])
    ensures WellFormed(c)
  {
    assert WellFormedOp(c.ops[0], 2, 2);
    assert WellFormedOp(c.ops[1], 2, 2);
    assert WellFormedOp(c.ops[2], 2, 2);
    assert WellFormedOp(c.ops[3], 2, 2);
    assert WellFormedOp(c.ops[4], 2, 2);
    assert WellFormedOp(c.ops[5], 2, 2);
  }

  /** ALAP over the instructions before 2, given when each wire is needed by the later ones. */
  lemma ForwardAlapTo2(a: Avail, ops: seq<Op>, durs: seq<nat>)
    requires |ops| == 6 && |durs| == 6
    requires ops[0] == Op(Gate("h"), [0], [], []) && durs[0] == 200
    requires ops[1] == Op(Delay(500), [1], [], []) && durs[1] == 500
    requires Get(a, Qubit(0)) == 1700 && Get(a, Qubit(1)) == 1700 && Get(a, Clbit(0)) == 1000 && Get(a, Clbit(1)) == 1000
    ensures var r := Alap.RunFrom(a, ops[..2], durs[..2], DefaultLatency);
      r.starts == [1700, 1700] && Span(r.avail, 2, 2) == 2200
  {
    var p1 := Alap.Step(a, ops[1], durs[1], DefaultLatency);
    assert p1.start == 1700 && Get(p1.avail, Qubit(0)) == 1700 && Get(p1.avail, Qubit(1)) == 2200 && Get(p1.avail, Clbit(0)) == 1000 && Get(p1.avail, Clbit(1)) == 1000 by {
      assert QubitWires([1]) == [Qubit(1)] && MaxOver(a, [Qubit(1)]) == 1700;
    }
    var p0 := Alap.Step(p1.avail, ops[0], durs[0], DefaultLatency);
    assert p0.start == 1700 && Get(p0.avail, Qubit(0)) == 1900 && Get(p0.avail, Qubit(1)) == 2200 && Get(p0.avail, Clbit(0)) == 1000 && Get(p0.avail, Clbit(1)) == 1000 by {
      assert QubitWires([0]) == [Qubit(0)] && MaxOver(p1.avail, [Qubit(0)]) == 1700;
    }
    Alap.RunFromSteps([p0.avail, p1.avail, a], ops[0..2], durs[0..2], [1700, 1700], DefaultLatency);
    Alap.RunFromSplit(a, ops, durs, DefaultLatency, 0, 2);
    assert Span(p0.avail, 2, 2) == 2200 by {
      assert AllWires(2, 2) == [Qubit(0), Qubit(1), Clbit(0), Clbit(1)] && MaxOver(p0.avail, [Clbit(1)]) == 1000 && MaxOver(p0.avail, [Clbit(0), Clbit(1)]) == 1000 && MaxOver(p0.avail, [Qubit(1), Clbit(0), Clbit(1)]) == 2200 && MaxOver(p0.avail, [Qubit(0), Qubit(1), Clbit(0), Clbit(1)]) == 2200;
    }
  }

  /** ALAP over the instructions before 4, given when each wire is needed by the later ones. */
  lemma ForwardAlapTo4(a: Avail, ops: seq<Op>, durs: seq<nat>)
    requires |ops| == 6 && |durs| == 6
    requires ops[0] == Op(Gate("h"), [0], [], []) && durs[0] == 200
    requires ops[1] == Op(Delay(500), [1], [], []) && durs[1] == 500
    requires ops[2] == Op(Gate("cx"), [0, 1], [], []) && durs[2] == 700
    requires ops[3] == Op(Barrier, [0, 1], [], []) && durs[3] == 0
    requires Get(a, Qubit(0)) == 1000 && Get(a, Qubit(1)) == 1000 && Get(a, Clbit(0)) == 1000 && Get(a, Clbit(1)) == 1000
    ensures var r := Alap.RunFrom(a, ops[..4], durs[..4], DefaultLatency);
      r.starts == ([1700, 1700]) + [1000, 1000] && Span(r.avail, 2, 2) == 2200
  {
    var p3 := Alap.Step(a, ops[3], durs[3], DefaultLatency);
    assert p3.start == 1000 && Get(p3.avail, Qubit(0)) == 1000 && Get(p3.avail, Qubit(1)) == 1000 && Get(p3.avail, Clbit(0)) == 1000 && Get(p3.avail, Clbit(1)) == 1000 by {
      assert QubitWires([0, 1]) == [Qubit(0), Qubit(1)] && MaxOver(a, [Qubit(1)]) == 1000 && MaxOver(a, [Qubit(0), Qubit(1)]) == 1000;
    }
    var p2 := Alap.Step(p3.avail, ops[2], durs[2], DefaultLatency);
    assert p2.start == 1000 && Get(p2.avail, Qubit(0)) == 1700 && Get(p2.avail, Qubit(1)) == 1700 && Get(p2.avail, Clbit(0)) == 1000 && Get(p2.avail, Clbit(1)) == 1000 by {
      assert QubitWires([0, 1]) == [Qubit(0), Qubit(1)] && MaxOver(p3.avail, [Qubit(1)]) == 1000 && MaxOver(p3.avail, [Qubit(0), Qubit(1)]) == 1000;
    }
    Alap.RunFromSteps([p2.avail, p3.avail, a], ops[2..4], durs[2..4], [1000, 1000], DefaultLatency);
    Alap.RunFromSplit(a, ops, durs, DefaultLatency, 2, 4);
    ForwardAlapTo2(p2.avail, ops, durs);
  }

  /** ALAP over the instructions before 6, given when each wire is needed by the later ones. */
  lemma ForwardAlapTo6(a: Avail, ops: seq<Op>, durs: seq<nat>)
    requires |ops| == 6 && |durs| == 6
    requires ops[0] == Op(Gate("h"), [0], [], []) && durs[0] == 200
    requires ops[1] == Op(Delay(500), [1], [], []) && durs[1] == 500
    requires ops[2] == Op(Gate("cx"), [0, 1], [], []) && durs[2] == 700
    requires ops[3] == Op(Barrier, [0, 1], [], []) && durs[3] == 0
    requires ops[4] == Op(Measure, [0], [0], []) && durs[4] == 1000
    requires ops[5] == Op(Measure, [1], [1], []) && durs[5] == 1000
    requires Get(a, Qubit(0)) == 0 && Get(a, Qubit(1)) == 0 && Get(a, Clbit(0)) == 0 && Get(a, Clbit(1)) == 0
    ensures var r := Alap.RunFrom(a, ops[..6], durs[..6], DefaultLatency);
      r.starts == (([1700, 1700]) + [1000, 1000]) + [0, 0] && Span(r.avail, 2, 2) == 2200
  {
    var p5 := Alap.Step(a, ops[5], durs[5], DefaultLatency);
    assert p5.start == 0 && Get(p5.avail, Qubit(0)) == 0 && Get(p5.avail, Qubit(1)) == 1000 && Get(p5.avail, Clbit(0)) == 0 && Get(p5.avail, Clbit(1)) == 1000 by {
      assert QubitWires([1]) == [Qubit(1)] && MaxOver(a, [Qubit(1)]) == 0 && ClbitWires([1]) == [Clbit(1)] && MaxOver(a, [Clbit(1)]) == 0;
    }
    var p4 := Alap.Step(p5.avail, ops[4], durs[4], DefaultLatency);
    assert p4.start == 0 && Get(p4.avail, Qubit(0)) == 1000 && Get(p4.avail, Qubit(1)) == 1000 && Get(p4.avail, Clbit(0)) == 1000 && Get(p4.avail, Clbit(1)) == 1000 by {
      assert QubitWires([0]) == [Qubit(0)] && MaxOver(p5.avail, [Qubit(0)]) == 0 && ClbitWires([0]) == [Clbit(0)] && MaxOver(p5.avail, [Clbit(0)]) == 0;
    }
    Alap.RunFromSteps([p4.avail, p5.avail, a], ops[4..6], durs[4..6], [0, 0], DefaultLatency);
    Alap.RunFromSplit(a, ops, durs, DefaultLatency, 4, 6);
    ForwardAlapTo4(p4.avail, ops, durs);
  }

  /** Start times counted from the beginning. */
  lemma ForwardAlapFlip(ends: seq<int>, durs: seq<nat>)
    requires ends == (([1700, 1700]) + [1000, 1000]) + [0, 0] && |durs| == 6
    requires durs[0] == 200
    requires durs[1] == 500
    requires durs[2] == 700
    requires durs[3] == 0
    requires durs[4] == 1000
    requires durs[5] == 1000
    ensures Alap.Flip(ends, durs, 2200) == [300, 0, 500, 1200, 1200, 1200]
  {
  }
  /** ALAP scheduling starts the instructions at [300, 0, 500, 1200, 1200, 1200], and the circuit lasts 2200. */
  lemma ForwardAlap(c: Circuit, durs: seq<nat>)
    requires c.numQubits == 2 && c.numClbits == 2 && |c.ops| == 6 && |durs| == 6
    requires c.ops[0] == Op(Gate("h"), [0], [], []) && durs[0] == 200
    requires c.ops[1] == Op(Delay(500), [1], [], []) && durs[1] == 500
    requires c.ops[2] == Op(Gate("cx"), [0, 1], [], []) && durs[2] == 700
    requires c.ops[3] == Op(Barrier, [0, 1], [], []) && durs[3] == 0
    requires c.ops[4] == Op(Measure, [0], [0], []) && durs[4] == 1000
    requires c.ops[5] == Op(Measure, [1], [1], []) && durs[5] == 1000
    ensures WellFormed(c)
    ensures Alap.Schedule(c, durs, DefaultLatency) == Timing.Schedule([300, 0, 500, 1200, 1200, 1200], durs, 2200)
  {
    ForwardWellFormed(c);
    WellFormedSchedulable(c);
    Alap.RunIsRunFrom(c.ops, durs, DefaultLatency);
    assert c.ops[..6] == c.ops && durs[..6] == durs;
    ForwardAlapTo6(map[], c.ops, durs);
    ForwardAlapFlip(Alap.Run(c.ops, durs, DefaultLatency).starts, durs);
  }

  /** Padding from instruction 0 on, given each qubit's cursor. */
  lemma ForwardAlapPadFrom0(cur: Avail, o: seq<Timed>, ops: seq<Op>, starts: seq<int>, durs: seq<nat>)
    requires |ops| == 6 && |starts| == 6 && |durs| == 6
    requires ops[0] == Op(Gate("h"), [0], [], []) && starts[0] == 300 && durs[0] == 200
    requires ops[1] == Op(Delay(500), [1], [], []) && starts[1] == 0 && durs[1] == 500
    requires ops[2] == Op(Gate("cx"), [0, 1], [], []) && starts[2] == 500 && durs[2] == 700
    requires ops[3] == Op(Barrier, [0, 1], [], []) && starts[3] == 1200 && durs[3] == 0
    requires ops[4] == Op(Measure, [0], [0], []) && starts[4] == 1200 && durs[4] == 1000
    requires ops[5] == Op(Measure, [1], [1], []) && starts[5] == 1200 && durs[5] == 1000
    requires Get(cur, Qubit(0)) == 0 && Get(cur, Qubit(1)) == 0
    ensures var r := PadFrom(PadState(cur, o), ops[0..], starts[0..], durs[0..], None);
      r.out == ((((o + [Idle(0, 0, 300), Timed(Op(Gate("h"), [0], [], []), 300, 200)]) + [Idle(1, 0, 500), Timed(Op(Gate("cx"), [0, 1], [], []), 500, 700)]) + [Timed(Op(Barrier, [0, 1], [], []), 1200, 0)]) + [Timed(Op(Measure, [0], [0], []), 1200, 1000)]) + [Timed(Op(Measure, [1], [1], []), 1200, 1000)] && Get(r.cursor, Qubit(0)) == 2200 && Get(r.cursor, Qubit(1)) == 2200
  {
    PadFromAt(PadState(cur, o), ops, starts, durs, None, 0);
    var s0 := PlaceOp(PadState(cur, []), ops[0], starts[0], durs[0], None);
    assert s0.out == [Idle(0, 0, 300), Timed(Op(Gate("h"), [0], [], []), 300, 200)] && Get(s0.cursor, Qubit(0)) == 500 && Get(s0.cursor, Qubit(1)) == 0;
    PlaceOpOut(cur, o, ops[0], starts[0], durs[0], None);
    ForwardAlapPadFrom1(s0.cursor, o + [Idle(0, 0, 300), Timed(Op(Gate("h"), [0], [], []), 300, 200)], ops, starts, durs);
  }

  /** Padding from instruction 1 on, given each qubit's cursor. */
  lemma ForwardAlapPadFrom1(cur: Avail, o: seq<Timed>, ops: seq<Op>, starts: seq<int>, durs: seq<nat>)
    requires |ops| == 6 && |starts| == 6 && |durs| == 6
    requires ops[1] == Op(Delay(500), [1], [], []) && starts[1] == 0 && durs[1] == 500
    requires ops[2] == Op(Gate("cx"), [0, 1], [], []) && starts[2] == 500 && durs[2] == 700
    requires ops[3] == Op(Barrier, [0, 1], [], []) && starts[3] == 1200 && durs[3] == 0
    requires ops[4] == Op(Measure, [0], [0], []) && starts[4] == 1200 && durs[4] == 1000
    requires ops[5] == Op(Measure, [1], [1], []) && starts[5] == 1200 && durs[5] == 1000
    requires Get(cur, Qubit(0)) == 500 && Get(cur, Qubit(1)) == 0
    ensures var r := PadFrom(PadState(cur, o), ops[1..], starts[1..], durs[1..], None);
      r.out == (((o + [Idle(1, 0, 500), Timed(Op(Gate("cx"), [0, 1], [], []), 500, 700)]) + [Timed(Op(Barrier, [0, 1], [], []), 1200, 0)]) + [Timed(Op(Measure, [0], [0], []), 1200, 1000)]) + [Timed(Op(Measure, [1], [1], []), 1200, 1000)] && Get(r.cursor, Qubit(0)) == 2200 && Get(r.cursor, Qubit(1)) == 2200
  {
    PadFromAt(PadState(cur, o), ops, starts, durs, None, 1);
    ForwardAlapPadFrom2(cur, o, ops, starts, durs);
  }

  /** Padding from instruction 2 on, given each qubit's cursor. */
  lemma ForwardAlapPadFrom2(cur: Avail, o: seq<Timed>, ops: seq<Op>, starts: seq<int>, durs: seq<nat>)
    requires |ops| == 6 && |starts| == 6 && |durs| == 6
    requires ops[2] == Op(Gate("cx"), [0, 1], [], []) && starts[2] == 500 && durs[2] == 700
    requires ops[3] == Op(Barrier, [0, 1], [], []) && starts[3] == 1200 && durs[3] == 0
    requires ops[4] == Op(Measure, [0], [0], []) && starts[4] == 1200 && durs[4] == 1000
    requires ops[5] == Op(Measure, [1], [1], []) && starts[5] == 1200 && durs[5] == 1000
    requires Get(cur, Qubit(0)) == 500 && Get(cur, Qubit(1)) == 0
    ensures var r := PadFrom(PadState(cur, o), ops[2..], starts[2..], durs[2..], None);
      r.out == (((o + [Idle(1, 0, 500), Timed(Op(Gate("cx"), [0, 1], [], []), 500, 700)]) + [Timed(Op(Barrier, [0, 1], [], []), 1200, 0)]) + [Timed(Op(Measure, [0], [0], []), 1200, 1000)]) + [Timed(Op(Measure, [1], [1], []), 1200, 1000)] && Get(r.cursor, Qubit(0)) == 2200 && Get(r.cursor, Qubit(1)) == 2200
  {
    PadFromAt(PadState(cur, o), ops, starts, durs, None, 2);
    var s2 := PlaceOp(PadState(cur, []), ops[2], starts[2], durs[2], None);
    assert s2.out == [Idle(1, 0, 500), Timed(Op(Gate("cx"), [0, 1], [], []), 500, 700)] && Get(s2.cursor, Qubit(0)) == 1200 && Get(s2.cursor, Qubit(1)) == 1200;
    PlaceOpOut(cur, o, ops[2], starts[2], durs[2], None);
    ForwardAlapPadFrom3(s2.cursor, o + [Idle(1, 0, 500), Timed(Op(Gate("cx"), [0, 1], [], []), 500, 700)], ops, starts, durs);
  }

  /** Padding from instruction 3 on, given each qubit's cursor. */
  lemma ForwardAlapPadFrom3(cur: Avail, o: seq<Timed>, ops: seq<Op>, starts: seq<int>, durs: seq<nat>)
    requires |ops| == 6 && |starts| == 6 && |durs| == 6
    requires ops[3] == Op(Barrier, [0, 1], [], []) && starts[3] == 1200 && durs[3] == 0
    requires ops[4] == Op(Measure, [0], [0], []) && starts[4] == 1200 && durs[4] == 1000
    requires ops[5] == Op(Measure, [1], [1], []) && starts[5] == 1200 && durs[5] == 1000
    requires Get(cur, Qubit(0)) == 1200 && Get(cur, Qubit(1)) == 1200
    ensures var r := PadFrom(PadState(cur, o), ops[3..], starts[3..], durs[3..], None);
      r.out == ((o + [Timed(Op(Barrier, [0, 1], [], []), 1200, 0)]) + [Timed(Op(Measure, [0], [0], []), 1200, 1000)]) + [Timed(Op(Measure, [1], [1], []), 1200, 1000)] && Get(r.cursor, Qubit(0)) == 2200 && Get(r.cursor, Qubit(1)) == 2200
  {
    PadFromAt(PadState(cur, o), ops, starts, durs, None, 3);
    var s3 := PlaceOp(PadState(cur, []), ops[3], starts[3], durs[3], None);
    assert s3.out == [Timed(Op(Barrier, [0, 1], [], []), 1200, 0)] && Get(s3.cursor, Qubit(0)) == 1200 && Get(s3.cursor, Qubit(1)) == 1200;
    PlaceOpOut(cur, o, ops[3], starts[3], durs[3], None);
    ForwardAlapPadFrom4(s3.cursor, o + [Timed(Op(Barrier, [0, 1], [], []), 1200, 0)], ops, starts, durs);
  }

  /** Padding from instruction 4 on, given each qubit's cursor. */
  lemma ForwardAlapPadFrom4(cur: Avail, o: seq<Timed>, ops: seq<Op>, starts: seq<int>, durs: seq<nat>)
    requires |ops| == 6 && |starts| == 6 && |durs| == 6
    requires ops[4] == Op(Measure, [0], [0], []) && starts[4] == 1200 && durs[4] == 1000
    requires ops[5] == Op(Measure, [1], [1], []) && starts[5] == 1200 && durs[5] == 1000
    requires Get(cur, Qubit(0)) == 1200 && Get(cur, Qubit(1)) == 1200
    ensures var r := PadFrom(PadState(cur, o), ops[4..], starts[4..], durs[4..], None);
      r.out == (o + [Timed(Op(Measure, [0], [0], []), 1200, 1000)]) + [Timed(Op(Measure, [1], [1], []), 1200, 1000)] && Get(r.cursor, Qubit(0)) == 2200 && Get(r.cursor, Qubit(1)) == 2200
  {
    PadFromAt(PadState(cur, o), ops, starts, durs, None, 4);
    var s4 := PlaceOp(PadState(cur, []), ops[4], starts[4], durs[4], None);
    assert s4.out == [Timed(Op(Measure, [0], [0], []), 1200, 1000)] && Get(s4.cursor, Qubit(0)) == 2200 && Get(s4.cursor, Qubit(1)) == 1200;
    PlaceOpOut(cur, o, ops[4], starts[4], durs[4], None);
    ForwardAlapPadFrom5(s4.cursor, o + [Timed(Op(Measure, [0], [0], []), 1200, 1000)], ops, starts, durs);
  }

  /** Padding from instruction 5 on, given each qubit's cursor. */
  lemma ForwardAlapPadFrom5(cur: Avail, o: seq<Timed>, ops: seq<Op>, starts: seq<int>, durs: seq<nat>)
    requires |ops| == 6 && |starts| == 6 && |durs| == 6
    requires ops[5] == Op(Measure, [1], [1], []) && starts[5] == 1200 && durs[5] == 1000
    requires Get(cur, Qubit(0)) == 2200 && Get(cur, Qubit(1)) == 1200
    ensures var r := PadFrom(PadState(cur, o), ops[5..], starts[5..], durs[5..], None);
      r.out == o + [Timed(Op(Measure, [1], [1], []), 1200, 1000)] && Get(r.cursor, Qubit(0)) == 2200 && Get(r.cursor, Qubit(1)) == 2200
  {
    PadFromAt(PadState(cur, o), ops, starts, durs, None, 5);
    var s5 := PlaceOp(PadState(cur, []), ops[5], starts[5], durs[5], None);
    assert s5.out == [Timed(Op(Measure, [1], [1], []), 1200, 1000)] && Get(s5.cursor, Qubit(0)) == 2200 && Get(s5.cursor, Qubit(1)) == 2200;
    PlaceOpOut(cur, o, ops[5], starts[5], durs[5], None);
    assert ops[6..] == [] && starts[6..] == [] && durs[6..] == [];
  }

  /** The latest end of any instruction. */
  lemma ForwardAlapPadLatestEnd(starts: seq<int>, durs: seq<nat>)
    requires starts == [300, 0, 500, 1200, 1200, 1200] && |durs| == 6
    requires durs[0] == 200
    requires durs[1] == 500
    requires durs[2] == 700
    requires durs[3] == 0
    requires durs[4] == 1000
    requires durs[5] == 1000
    ensures LatestEnd(starts, durs) == 2200
  {
  }

  /** The delays after the last instruction. */
  lemma ForwardAlapPadEndGaps(cur: Avail)
    requires Get(cur, Qubit(0)) == 2200 && Get(cur, Qubit(1)) == 2200
    ensures EndGaps(cur, 2, 2200, None) == []
  {
    assert true && EndGaps(cur, 1, 2200, None) == [];
  }

  /** The padded instructions in order. */
  lemma ForwardAlapPaddedOut(body: seq<Timed>, tail: seq<Timed>)
    requires body == (((([] + [Idle(0, 0, 300), Timed(Op(Gate("h"), [0], [], []), 300, 200)]) + [Idle(1, 0, 500), Timed(Op(Gate("cx"), [0, 1], [], []), 500, 700)]) + [Timed(Op(Barrier, [0, 1], [], []), 1200, 0)]) + [Timed(Op(Measure, [0], [0], []), 1200, 1000)]) + [Timed(Op(Measure, [1], [1], []), 1200, 1000)] && tail == []
    ensures body + tail == [Idle(0, 0, 300), Timed(Op(Gate("h"), [0], [], []), 300, 200), Idle(1, 0, 500), Timed(Op(Gate("cx"), [0, 1], [], []), 500, 700), Timed(Op(Barrier, [0, 1], [], []), 1200, 0), Timed(Op(Measure, [0], [0], []), 1200, 1000), Timed(Op(Measure, [1], [1], []), 1200, 1000)]
  {
  }

  /** Padding the ALAP schedule gives these instructions, in this order, and the duration 2200. */
  lemma ForwardAlapPadded(c: Circuit, durs: seq<nat>)
    requires c.numQubits == 2 && c.numClbits == 2 && |c.ops| == 6 && |durs| == 6
    requires c.ops[0] == Op(Gate("h"), [0], [], []) && durs[0] == 200
    requires c.ops[1] == Op(Delay(500), [1], [], []) && durs[1] == 500
    requires c.ops[2] == Op(Gate("cx"), [0, 1], [], []) && durs[2] == 700
    requires c.ops[3] == Op(Barrier, [0, 1], [], []) && durs[3] == 0
    requires c.ops[4] == Op(Measure, [0], [0], []) && durs[4] == 1000
    requires c.ops[5] == Op(Measure, [1], [1], []) && durs[5] == 1000
    ensures Pad(c, Some(StartTimes(Alap.Schedule(c, durs, DefaultLatency))), durs, None, true) == Success(Padded([Idle(0, 0, 300), Timed(Op(Gate("h"), [0], [], []), 300, 200), Idle(1, 0, 500), Timed(Op(Gate("cx"), [0, 1], [], []), 500, 700), Timed(Op(Barrier, [0, 1], [], []), 1200, 0), Timed(Op(Measure, [0], [0], []), 1200, 1000), Timed(Op(Measure, [1], [1], []), 1200, 1000)], 2200))
  {
    ForwardAlap(c, durs);
    var s := Timing.Schedule([300, 0, 500, 1200, 1200, 1200], durs, 2200);
    ForwardAlapPadFrom0(map[], [], c.ops, s.starts, durs);
    assert c.ops[0..] == c.ops && s.starts[0..] == s.starts && durs[0..] == durs;
    var st := PadFrom(PadState(map[], []), c.ops, s.starts, durs, None);
    ForwardAlapPadLatestEnd(s.starts, durs);
    PadOfSchedule(c, s, None, true, st, 2200);
    ForwardAlapPadEndGaps(st.cursor);
    ForwardAlapPaddedOut(st.out, []);
  }

  /** The circuit is well formed. */
  lemma BackwardWellFormed(c: Circuit)
    requires c.numQubits == 2 && c.numClbits == 2 && |c.ops| == 6
    requires c.ops[0] == Op(Measure, [1], [1], [])
    requires c.ops[1] == Op(Measure, [0], [0], [])
    requires c.ops[2] == Op(Barrier, [0, 1], [], [])
    requires c.ops[3] == Op(Gate("cx"), [0, 1], [], [])
    requires c.ops[4] == Op(Delay(500), [1], [], [])
    requires c.ops[5] == Op(Gate("h"), [0], [], [])
    ensures WellFormed(c)
  {
    assert WellFormedOp(c.ops[0], 2, 2);
    assert WellFormedOp(c.ops[1], 2, 2);
    assert WellFormedOp(c.ops[2], 2, 2);
    assert WellFormedOp(c.ops[3], 2, 2);
    assert WellFormedOp(c.ops[4], 2, 2);
    assert WellFormedOp(c.ops[5], 2, 2);
  }

  /** ASAP from instruction 0 on, given when each wire is free. */
  lemma BackwardAsapFrom0(a: Avail, ops: seq<Op>, durs: seq<nat>)
    requires |ops| == 6 && |durs| == 6
    requires ops[0] == Op(Measure, [1], [1], []) && durs[0] == 1000
    requires ops[1] == Op(Measure, [0], [0], []) && durs[1] == 1000
    requires ops[2] == Op(Barrier, [0, 1], [], []) && durs[2] == 0
    requires ops[3] == Op(Gate("cx"), [0, 1], [], []) && durs[3] == 700
    requires ops[4] == Op(Delay(500), [1], [], []) && durs[4] == 500
    requires ops[5] == Op(Gate("h"), [0], [], []) && durs[5] == 200
    requires Get(a, Qubit(0)) == 0 && Get(a, Qubit(1)) == 0 && Get(a, Clbit(0)) == 0 && Get(a, Clbit(1)) == 0
    ensures var r := Asap.RunFrom(a, ops[0..], durs[0..], DefaultLatency);
      r.starts == [0, 0] + ([1000, 1000] + ([1700, 1700])) && Span(r.avail, 2, 2) == 2200
  {
    var p0 := Asap.Step(a, ops[0], durs[0], DefaultLatency);
    assert p0.start == 0 && Get(p0.avail, Qubit(0)) == 0 && Get(p0.avail, Qubit(1)) == 1000 && Get(p0.avail, Clbit(0)) == 0 && Get(p0.avail, Clbit(1)) == 1000 by {
      assert QubitWires([1]) == [Qubit(1)] && MaxOver(a, [Qubit(1)]) == 0 && ClbitWires([1]) == [Clbit(1)] && MaxOver(a, [Clbit(1)]) == 0;
    }
    var p1 := Asap.Step(p0.avail, ops[1], durs[1], DefaultLatency);
    assert p1.start == 0 && Get(p1.avail, Qubit(0)) == 1000 && Get(p1.avail, Qubit(1)) == 1000 && Get(p1.avail, Clbit(0)) == 1000 && Get(p1.avail, Clbit(1)) == 1000 by {
      assert QubitWires([0]) == [Qubit(0)] && MaxOver(p0.avail, [Qubit(0)]) == 0 && ClbitWires([0]) == [Clbit(0)] && MaxOver(p0.avail, [Clbit(0)]) == 0;
    }
    Asap.RunFromSteps([a, p0.avail, p1.avail], ops[0..2], durs[0..2], [0, 0], DefaultLatency);
    Asap.RunFromSplit(a, ops, durs, DefaultLatency, 0, 2);
    BackwardAsapFrom2(p1.avail, ops, durs);
  }

  /** ASAP from instruction 2 on, given when each wire is free. */
  lemma BackwardAsapFrom2(a: Avail, ops: seq<Op>, durs: seq<nat>)
    requires |ops| == 6 && |durs| == 6
    requires ops[2] == Op(Barrier, [0, 1], [], []) && durs[2] == 0
    requires ops[3] == Op(Gate("cx"), [0, 1], [], []) && durs[3] == 700
    requires ops[4] == Op(Delay(500), [1], [], []) && durs[4] == 500
    requires ops[5] == Op(Gate("h"), [0], [], []) && durs[5] == 200
    requires Get(a, Qubit(0)) == 1000 && Get(a, Qubit(1)) == 1000 && Get(a, Clbit(0)) == 1000 && Get(a, Clbit(1)) == 1000
    ensures var r := Asap.RunFrom(a, ops[2..], durs[2..], DefaultLatency);
      r.starts == [1000, 1000] + ([1700, 1700]) && Span(r.avail, 2, 2) == 2200
  {
    var p2 := Asap.Step(a, ops[2], durs[2], DefaultLatency);
    assert p2.start == 1000 && Get(p2.avail, Qubit(0)) == 1000 && Get(p2.avail, Qubit(1)) == 1000 && Get(p2.avail, Clbit(0)) == 1000 && Get(p2.avail, Clbit(1)) == 1000 by {
      assert QubitWires([0, 1]) == [Qubit(0), Qubit(1)] && MaxOver(a, [Qubit(1)]) == 1000 && MaxOver(a, [Qubit(0), Qubit(1)]) == 1000;
    }
    var p3 := Asap.Step(p2.avail, ops[3], durs[3], DefaultLatency);
    assert p3.start == 1000 && Get(p3.avail, Qubit(0)) == 1700 && Get(p3.avail, Qubit(1)) == 1700 && Get(p3.avail, Clbit(0)) == 1000 && Get(p3.avail, Clbit(1)) == 1000 by {
      assert QubitWires([0, 1]) == [Qubit(0), Qubit(1)] && MaxOver(p2.avail, [Qubit(1)]) == 1000 && MaxOver(p2.avail, [Qubit(0), Qubit(1)]) == 1000;
    }
    Asap.RunFromSteps([a, p2.avail, p3.avail], ops[2..4], durs[2..4], [1000, 1000], DefaultLatency);
    Asap.RunFromSplit(a, ops, durs, DefaultLatency, 2, 4);
    BackwardAsapFrom4(p3.avail, ops, durs);
  }

  /** ASAP from instruction 4 on, given when each wire is free. */
  lemma BackwardAsapFrom4(a: Avail, ops: seq<Op>, durs: seq<nat>)
    requires |ops| == 6 && |durs| == 6
    requires ops[4] == Op(Delay(500), [1], [], []) && durs[4] == 500
    requires ops[5] == Op(Gate("h"), [0], [], []) && durs[5] == 200
    requires Get(a, Qubit(0)) == 1700 && Get(a, Qubit(1)) == 1700 && Get(a, Clbit(0)) == 1000 && Get(a, Clbit(1)) == 1000
    ensures var r := Asap.RunFrom(a, ops[4..], durs[4..], DefaultLatency);
      r.starts == [1700, 1700] && Span(r.avail, 2, 2) == 2200
  {
    var p4 := Asap.Step(a, ops[4], durs[4], DefaultLatency);
    assert p4.start == 1700 && Get(p4.avail, Qubit(0)) == 1700 && Get(p4.avail, Qubit(1)) == 2200 && Get(p4.avail, Clbit(0)) == 1000 && Get(p4.avail, Clbit(1)) == 1000 by {
      assert QubitWires([1]) == [Qubit(1)] && MaxOver(a, [Qubit(1)]) == 1700;
    }
    var p5 := Asap.Step(p4.avail, ops[5], durs[5], DefaultLatency);
    assert p5.start == 1700 && Get(p5.avail, Qubit(0)) == 1900 && Get(p5.avail, Qubit(1)) == 2200 && Get(p5.avail, Clbit(0)) == 1000 && Get(p5.avail, Clbit(1)) == 1000 by {
      assert QubitWires([0]) == [Qubit(0)] && MaxOver(p4.avail, [Qubit(0)]) == 1700;
    }
    Asap.RunFromSteps([a, p4.avail, p5.avail], ops[4..], durs[4..], [1700, 1700], DefaultLatency);
    assert Span(p5.avail, 2, 2) == 2200 by {
      assert AllWires(2, 2) == [Qubit(0), Qubit(1), Clbit(0), Clbit(1)] && MaxOver(p5.avail, [Clbit(1)]) == 1000 && MaxOver(p5.avail, [Clbit(0), Clbit(1)]) == 1000 && MaxOver(p5.avail, [Qubit(1), Clbit(0), Clbit(1)]) == 2200 && MaxOver(p5.avail, [Qubit(0), Qubit(1), Clbit(0), Clbit(1)]) == 2200;
    }
  }

  /** The start times, gathered. */
  lemma BackwardAsapStarts(starts: seq<int>)
    requires starts == [0, 0] + ([1000, 1000] + ([1700, 1700]))
    ensures starts == [0, 0, 1000, 1000, 1700, 1700]
  {
  }

  /** ASAP scheduling starts the instructions at [0, 0, 1000, 1000, 1700, 1700], and the circuit lasts 2200. */
  lemma BackwardAsap(c: Circuit, durs: seq<nat>)
    requires c.numQubits == 2 && c.numClbits == 2 && |c.ops| == 6 && |durs| == 6
    requires c.ops[0] == Op(Measure, [1], [1], []) && durs[0] == 1000
    requires c.ops[1] == Op(Measure, [0], [0], []) && durs[1] == 1000
    requires c.ops[2] == Op(Barrier, [0, 1], [], []) && durs[2] == 0
    requires c.ops[3] == Op(Gate("cx"), [0, 1], [], []) && durs[3] == 700
    requires c.ops[4] == Op(Delay(500), [1], [], []) && durs[4] == 500
    requires c.ops[5] == Op(Gate("h"), [0], [], []) && durs[5] == 200
    ensures WellFormed(c)
    ensures Asap.Schedule(c, durs, DefaultLatency) == Timing.Schedule([0, 0, 1000, 1000, 1700, 1700], durs, 2200)
  {
    BackwardWellFormed(c);
    WellFormedSchedulable(c);
    Asap.RunIsRunFrom(c.ops, durs, DefaultLatency);
    assert c.ops[0..] == c.ops && durs[0..] == durs;
    BackwardAsapFrom0(map[], c.ops, durs);
    BackwardAsapStarts(Asap.Run(c.ops, durs, DefaultLatency).starts);
  }

  /** Padding from instruction 0 on, given each qubit's cursor. */
  lemma BackwardAsapPadFrom0(cur: Avail, o: seq<Timed>, ops: seq<Op>, starts: seq<int>, durs: seq<nat>)
    requires |ops| == 6 && |starts| == 6 && |durs| == 6
    requires ops[0] == Op(Measure, [1], [1], []) && starts[0] == 0 && durs[0] == 1000
    requires ops[1] == Op(Measure, [0], [0], []) && starts[1] == 0 && durs[1] == 1000
    requires ops[2] == Op(Barrier, [0, 1], [], []) && starts[2] == 1000 && durs[2] == 0
    requires ops[3] == Op(Gate("cx"), [0, 1], [], []) && starts[3] == 1000 && durs[3] == 700
    requires ops[4] == Op(Delay(500), [1], [], []) && starts[4] == 1700 && durs[4] == 500
    requires ops[5] == Op(Gate("h"), [0], [], []) && starts[5] == 1700 && durs[5] == 200
    requires Get(cur, Qubit(0)) == 0 && Get(cur, Qubit(1)) == 0
    ensures var r := PadFrom(PadState(cur, o), ops[0..], starts[0..], durs[0..], None);
      r.out == ((((o + [Timed(Op(Measure, [1], [1], []), 0, 1000)]) + [Timed(Op(Measure, [0], [0], []), 0, 1000)]) + [Timed(Op(Barrier, [0, 1], [], []), 1000, 0)]) + [Timed(Op(Gate("cx"), [0, 1], [], []), 1000, 700)]) + [Timed(Op(Gate("h"), [0], [], []), 1700, 200)] && Get(r.cursor, Qubit(0)) == 1900 && Get(r.cursor, Qubit(1)) == 1700
  {
    PadFromAt(PadState(cur, o), ops, starts, durs, None, 0);
    var s0 := PlaceOp(PadState(cur, []), ops[0], starts[0], durs[0], None);
    assert s0.out == [Timed(Op(Measure, [1], [1], []), 0, 1000)] && Get(s0.cursor, Qubit(0)) == 0 && Get(s0.cursor, Qubit(1)) == 1000;
    PlaceOpOut(cur, o, ops[0], starts[0], durs[0], None);
    BackwardAsapPadFrom1(s0.cursor, o + [Timed(Op(Measure, [1], [1], []), 0, 1000)], ops, starts, durs);
  }

  /** Padding from instruction 1 on, given each qubit's cursor. */
  lemma BackwardAsapPadFrom1(cur: Avail, o: seq<Timed>, ops: seq<Op>, starts: seq<int>, durs: seq<nat>)
    requires |ops| == 6 && |starts| == 6 && |durs| == 6
    requires ops[1] == Op(Measure, [0], [0], []) && starts[1] == 0 && durs[1] == 1000
    requires ops[2] == Op(Barrier, [0, 1], [], []) && starts[2] == 1000 && durs[2] == 0
    requires ops[3] == Op(Gate("cx"), [0, 1], [], []) && starts[3] == 1000 && durs[3] == 700
    requires ops[4] == Op(Delay(500), [1], [], []) && starts[4] == 1700 && durs[4] == 500
    requires ops[5] == Op(Gate("h"), [0], [], []) && starts[5] == 1700 && durs[5] == 200
    requires Get(cur, Qubit(0)) == 0 && Get(cur, Qubit(1)) == 1000
    ensures var r := PadFrom(PadState(cur, o), ops[1..], starts[1..], durs[1..], None);
      r.out == (((o + [Timed(Op(Measure, [0], [0], []), 0, 1000)]) + [Timed(Op(Barrier, [0, 1], [], []), 1000, 0)]) + [Timed(Op(Gate("cx"), [0, 1], [], []), 1000, 700)]) + [Timed(Op(Gate("h"), [0], [], []), 1700, 200)] && Get(r.cursor, Qubit(0)) == 1900 && Get(r.cursor, Qubit(1)) == 1700
  {
    PadFromAt(PadState(cur, o), ops, starts, durs, None, 1);
    var s1 := PlaceOp(PadState(cur, []), ops[1], starts[1], durs[1], None);
    assert s1.out == [Timed(Op(Measure, [0], [0], []), 0, 1000)] && Get(s1.cursor, Qubit(0)) == 1000 && Get(s1.cursor, Qubit(1)) == 1000;
    PlaceOpOut(cur, o, ops[1], starts[1], durs[1], None);
    BackwardAsapPadFrom2(s1.cursor, o + [Timed(Op(Measure, [0], [0], []), 0, 1000)], ops, starts, durs);
  }

  /** Padding from instruction 2 on, given each qubit's cursor. */
  lemma BackwardAsapPadFrom2(cur: Avail, o: seq<Timed>, ops: seq<Op>, starts: seq<int>, durs: seq<nat>)
    requires |ops| == 6 && |starts| == 6 && |durs| == 6
    requires ops[2] == Op(Barrier, [0, 1], [], []) && starts[2] == 1000 && durs[2] == 0
    requires ops[3] == Op(Gate("cx"), [0, 1], [], []) && starts[3] == 1000 && durs[3] == 700
    requires ops[4] == Op(Delay(500), [1], [], []) && starts[4] == 1700 && durs[4] == 500
    requires ops[5] == Op(Gate("h"), [0], [], []) && starts[5] == 1700 && durs[5] == 200
    requires Get(cur, Qubit(0)) == 1000 && Get(cur, Qubit(1)) == 1000
    ensures var r := PadFrom(PadState(cur, o), ops[2..], starts[2..], durs[2..], None);
      r.out == ((o + [Timed(Op(Barrier, [0, 1], [], []), 1000, 0)]) + [Timed(Op(Gate("cx"), [0, 1], [], []), 1000, 700)]) + [Timed(Op(Gate("h"), [0], [], []), 1700, 200)] && Get(r.cursor, Qubit(0)) == 1900 && Get(r.cursor, Qubit(1)) == 1700
  {
    PadFromAt(PadState(cur, o), ops, starts, durs, None, 2);
    var s2 := PlaceOp(PadState(cur, []), ops[2], starts[2], durs[2], None);
    assert s2.out == [Timed(Op(Barrier, [0, 1], [], []), 1000, 0)] && Get(s2.cursor, Qubit(0)) == 1000 && Get(s2.cursor, Qubit(1)) == 1000;
    PlaceOpOut(cur, o, ops[2], starts[2], durs[2], None);
    BackwardAsapPadFrom3(s2.cursor, o + [Timed(Op(Barrier, [0, 1], [], []), 1000, 0)], ops, starts, durs);
  }

  /** Padding from instruction 3 on, given each qubit's cursor. */
  lemma BackwardAsapPadFrom3(cur: Avail, o: seq<Timed>, ops: seq<Op>, starts: seq<int>, durs: seq<nat>)
    requires |ops| == 6 && |starts| == 6 && |durs| == 6
    requires ops[3] == Op(Gate("cx"), [0, 1], [], []) && starts[3] == 1000 && durs[3] == 700
    requires ops[4] == Op(Delay(500), [1], [], []) && starts[4] == 1700 && durs[4] == 500
    requires ops[5] == Op(Gate("h"), [0], [], []) && starts[5] == 1700 && durs[5] == 200
    requires Get(cur, Qubit(0)) == 1000 && Get(cur, Qubit(1)) == 1000
    ensures var r := PadFrom(PadState(cur, o), ops[3..], starts[3..], durs[3..], None);
      r.out == (o + [Timed(Op(Gate("cx"), [0, 1], [], []), 1000, 700)]) + [Timed(Op(Gate("h"), [0], [], []), 1700, 200)] && Get(r.cursor, Qubit(0)) == 1900 && Get(r.cursor, Qubit(1)) == 1700
  {
    PadFromAt(PadState(cur, o), ops, starts, durs, None, 3);
    var s3 := PlaceOp(PadState(cur, []), ops[3], starts[3], durs[3], None);
    assert s3.out == [Timed(Op(Gate("cx"), [0, 1], [], []), 1000, 700)] && Get(s3.cursor, Qubit(0)) == 1700 && Get(s3.cursor, Qubit(1)) == 1700;
    PlaceOpOut(cur, o, ops[3], starts[3], durs[3], None);
    BackwardAsapPadFrom4(s3.cursor, o + [Timed(Op(Gate("cx"), [0, 1], [], []), 1000, 700)], ops, starts, durs);
  }

  /** Padding from instruction 4 on, given each qubit's cursor. */
  lemma BackwardAsapPadFrom4(cur: Avail, o: seq<Timed>, ops: seq<Op>, starts: seq<int>, durs: seq<nat>)
    requires |ops| == 6 && |starts| == 6 && |durs| == 6
    requires ops[4] == Op(Delay(500), [1], [], []) && starts[4] == 1700 && durs[4] == 500
    requires ops[5] == Op(Gate("h"), [0], [], []) && starts[5] == 1700 && durs[5] == 200
    requires Get(cur, Qubit(0)) == 1700 && Get(cur, Qubit(1)) == 1700
    ensures var r := PadFrom(PadState(cur, o), ops[4..], starts[4..], durs[4..], None);
      r.out == o + [Timed(Op(Gate("h"), [0], [], []), 1700, 200)] && Get(r.cursor, Qubit(0)) == 1900 && Get(r.cursor, Qubit(1)) == 1700
  {
    PadFromAt(PadState(cur, o), ops, starts, durs, None, 4);
    BackwardAsapPadFrom5(cur, o, ops, starts, durs);
  }

  /** Padding from instruction 5 on, given each qubit's cursor. */
  lemma BackwardAsapPadFrom5(cur: Avail, o: seq<Timed>, ops: seq<Op>, starts: seq<int>, durs: seq<nat>)
    requires |ops| == 6 && |starts| == 6 && |durs| == 6
    requires ops[5] == Op(Gate("h"), [0], [], []) && starts[5] == 1700 && durs[5] == 200
    requires Get(cur, Qubit(0)) == 1700 && Get(cur, Qubit(1)) == 1700
    ensures var r := PadFrom(PadState(cur, o), ops[5..], starts[5..], durs[5..], None);
      r.out == o + [Timed(Op(Gate("h"), [0], [], []), 1700, 200)] && Get(r.cursor, Qubit(0)) == 1900 && Get(r.cursor, Qubit(1)) == 1700
  {
    PadFromAt(PadState(cur, o), ops, starts, durs, None, 5);
    var s5 := PlaceOp(PadState(cur, []), ops[5], starts[5], durs[5], None);
    assert s5.out == [Timed(Op(Gate("h"), [0], [], []), 1700, 200)] && Get(s5.cursor, Qubit(0)) == 1900 && Get(s5.cursor, Qubit(1)) == 1700;
    PlaceOpOut(cur, o, ops[5], starts[5], durs[5], None);
    assert ops[6..] == [] && starts[6..] == [] && durs[6..] == [];
  }

  /** The latest end of any instruction. */
  lemma BackwardAsapPadLatestEnd(starts: seq<int>, durs: seq<nat>)
    requires starts == [0, 0, 1000, 1000, 1700, 1700] && |durs| == 6
    requires durs[0] == 1000
    requires durs[1] == 1000
    requires durs[2] == 0
    requires durs[3] == 700
    requires durs[4] == 500
    requires durs[5] == 200
    ensures LatestEnd(starts, durs) == 2200
  {
  }

  /** The delays after the last instruction. */
  lemma BackwardAsapPadEndGaps(cur: Avail)
    requires Get(cur, Qubit(0)) == 1900 && Get(cur, Qubit(1)) == 1700
    ensures EndGaps(cur, 2, 2200, None) == [Idle(0, 1900, 2200), Idle(1, 1700, 2200)]
  {
    assert true && EndGaps(cur, 1, 2200, None) == [Idle(0, 1900, 2200)];
  }

  /** The padded instructions in order. */
  lemma BackwardAsapPaddedOut(body: seq<Timed>, tail: seq<Timed>)
    requires body == (((([] + [Timed(Op(Measure, [1], [1], []), 0, 1000)]) + [Timed(Op(Measure, [0], [0], []), 0, 1000)]) + [Timed(Op(Barrier, [0, 1], [], []), 1000, 0)]) + [Timed(Op(Gate("cx"), [0, 1], [], []), 1000, 700)]) + [Timed(Op(Gate("h"), [0], [], []), 1700, 200)] && tail == [Idle(0, 1900, 2200), Idle(1, 1700, 2200)]
    ensures body + tail == [Timed(Op(Measure, [1], [1], []), 0, 1000), Timed(Op(Measure, [0], [0], []), 0, 1000), Timed(Op(Barrier, [0, 1], [], []), 1000, 0), Timed(Op(Gate("cx"), [0, 1], [], []), 1000, 700), Timed(Op(Gate("h"), [0], [], []), 1700, 200), Idle(0, 1900, 2200), Idle(1, 1700, 2200)]
  {
  }

  /** Padding the ASAP schedule gives these instructions, in this order, and the duration 2200. */
  lemma BackwardAsapPadded(c: Circuit, durs: seq<nat>)
    requires c.numQubits == 2 && c.numClbits == 2 && |c.ops| == 6 && |durs| == 6
    requires c.ops[0] == Op(Measure, [1], [1], []) && durs[0] == 1000
    requires c.ops[1] == Op(Measure, [0], [0], []) && durs[1] == 1000
    requires c.ops[2] == Op(Barrier, [0, 1], [], []) && durs[2] == 0
    requires c.ops[3] == Op(Gate("cx"), [0, 1], [], []) && durs[3] == 700
    requires c.ops[4] == Op(Delay(500), [1], [], []) && durs[4] == 500
    requires c.ops[5] == Op(Gate("h"), [0], [], []) && durs[5] == 200
    ensures Pad(c, Some(StartTimes(Asap.Schedule(c, durs, DefaultLatency))), durs, None, true) == Success(Padded([Timed(Op(Measure, [1], [1], []), 0, 1000), Timed(Op(Measure, [0], [0], []), 0, 1000), Timed(Op(Barrier, [0, 1], [], []), 1000, 0), Timed(Op(Gate("cx"), [0, 1], [], []), 1000, 700), Timed(Op(Gate("h"), [0], [], []), 1700, 200), Idle(0, 1900, 2200), Idle(1, 1700, 2200)], 2200))
  {
    BackwardAsap(c, durs);
    var s := Timing.Schedule([0, 0, 1000, 1000, 1700, 1700], durs, 2200);
    BackwardAsapPadFrom0(map[], [], c.ops, s.starts, durs);
    assert c.ops[0..] == c.ops && s.starts[0..] == s.starts && durs[0..] == durs;
    var st := PadFrom(PadState(map[], []), c.ops, s.starts, durs, None);
    BackwardAsapPadLatestEnd(s.starts, durs);
    PadOfSchedule(c, s, None, true, st, 2200);
    BackwardAsapPadEndGaps(st.cursor);
    BackwardAsapPaddedOut(st.out, [Idle(0, 1900, 2200), Idle(1, 1700, 2200)]);
  }

  /** The duration of each instruction, looked up in the duration table. */
  lemma ForwardDurations(c: Circuit)
    requires |c.ops| == 6
    requires c.ops[0] == Op(Gate("h"), [0], [], [])
    requires c.ops[1] == Op(Delay(500), [1], [], [])
    requires c.ops[2] == Op(Gate("cx"), [0, 1], [], [])
    requires c.ops[3] == Op(Barrier, [0, 1], [], [])
    requires c.ops[4] == Op(Measure, [0], [0], [])
    requires c.ops[5] == Op(Measure, [1], [1], [])
    ensures AllResolved(map[], FromEntries([Entry("h", Some([0]), 200), Entry("cx", Some([0, 1]), 700), Entry("measure", None, 1000)]), c.ops) && DurationsOf(map[], FromEntries([Entry("h", Some([0]), 200), Entry("cx", Some([0, 1]), 700), Entry("measure", None, 1000)]), c.ops) == [200, 500, 700, 0, 1000, 1000]
  {
    var t := FromEntries([Entry("h", Some([0]), 200), Entry("cx", Some([0, 1]), 700), Entry("measure", None, 1000)]);
    assert NodeDuration(map[], t, c.ops[0]) == Some(200);
    assert NodeDuration(map[], t, c.ops[1]) == Some(500);
    assert NodeDuration(map[], t, c.ops[2]) == Some(700);
    assert NodeDuration(map[], t, c.ops[3]) == Some(0);
    assert NodeDuration(map[], t, c.ops[4]) == Some(1000);
    assert NodeDuration(map[], t, c.ops[5]) == Some(1000);
    DurationsAre(map[], t, c.ops, [200, 500, 700, 0, 1000, 1000]);
  }

  /** The duration of each instruction, looked up in the target. */
  lemma ForwardTargetDurations(c: Circuit)
    requires |c.ops| == 6
    requires c.ops[0] == Op(Gate("h"), [0], [], [])
    requires c.ops[1] == Op(Delay(500), [1], [], [])
    requires c.ops[2] == Op(Gate("cx"), [0, 1], [], [])
    requires c.ops[3] == Op(Barrier, [0, 1], [], [])
    requires c.ops[4] == Op(Measure, [0], [0], [])
    requires c.ops[5] == Op(Measure, [1], [1], [])
    ensures AllResolved(map[], FromTarget(Target(map[("h", [0]) := 200, ("cx", [0, 1]) := 700, ("measure", [0]) := 1000, ("measure", [1]) := 1000], {})), c.ops) && DurationsOf(map[], FromTarget(Target(map[("h", [0]) := 200, ("cx", [0, 1]) := 700, ("measure", [0]) := 1000, ("measure", [1]) := 1000], {})), c.ops) == [200, 500, 700, 0, 1000, 1000]
  {
    var t := FromTarget(Target(map[("h", [0]) := 200, ("cx", [0, 1]) := 700, ("measure", [0]) := 1000, ("measure", [1]) := 1000], {}));
    assert NodeDuration(map[], t, c.ops[0]) == Some(200);
    assert NodeDuration(map[], t, c.ops[1]) == Some(500);
    assert NodeDuration(map[], t, c.ops[2]) == Some(700);
    assert NodeDuration(map[], t, c.ops[3]) == Some(0);
    assert NodeDuration(map[], t, c.ops[4]) == Some(1000);
    assert NodeDuration(map[], t, c.ops[5]) == Some(1000);
    DurationsAre(map[], t, c.ops, [200, 500, 700, 0, 1000, 1000]);
  }

  /** The instructions of the padded circuit on qubit 0. */
  lemma ForwardTrack0(out: seq<Timed>)
    requires |out| == 7
    requires out[0] == Idle(0, 0, 300)
    requires out[1] == Timed(Op(Gate("h"), [0], [], []), 300, 200)
    requires out[2] == Idle(1, 0, 500)
    requires out[3] == Timed(Op(Gate("cx"), [0, 1], [], []), 500, 700)
    requires out[4] == Timed(Op(Barrier, [0, 1], [], []), 1200, 0)
    requires out[5] == Timed(Op(Measure, [0], [0], []), 1200, 1000)
    requires out[6] == Timed(Op(Measure, [1], [1], []), 1200, 1000)
    ensures Track(out, 0) == [Idle(0, 0, 300), Timed(Op(Gate("h"), [0], [], []), 300, 200), Timed(Op(Gate("cx"), [0, 1], [], []), 500, 700), Timed(Op(Barrier, [0, 1], [], []), 1200, 0), Timed(Op(Measure, [0], [0], []), 1200, 1000)]
  {
    assert out[..0] == [];
    TrackPrefix(out, 0, 0);
    TrackPrefix(out, 1, 0);
    TrackPrefix(out, 2, 0);
    TrackPrefix(out, 3, 0);
    TrackPrefix(out, 4, 0);
    TrackPrefix(out, 5, 0);
    TrackPrefix(out, 6, 0);
    assert out[..7] == out;
  }

  /** The instructions of the padded circuit on qubit 1. */
  lemma ForwardTrack1(out: seq<Timed>)
    requires |out| == 7
    requires out[0] == Idle(0, 0, 300)
    requires out[1] == Timed(Op(Gate("h"), [0], [], []), 300, 200)
    requires out[2] == Idle(1, 0, 500)
    requires out[3] == Timed(Op(Gate("cx"), [0, 1], [], []), 500, 700)
    requires out[4] == Timed(Op(Barrier, [0, 1], [], []), 1200, 0)
    requires out[5] == Timed(Op(Measure, [0], [0], []), 1200, 1000)
    requires out[6] == Timed(Op(Measure, [1], [1], []), 1200, 1000)
    ensures Track(out, 1) == [Idle(1, 0, 500), Timed(Op(Gate("cx"), [0, 1], [], []), 500, 700), Timed(Op(Barrier, [0, 1], [], []), 1200, 0), Timed(Op(Measure, [1], [1], []), 1200, 1000)]
  {
    assert out[..0] == [];
    TrackPrefix(out, 0, 1);
    TrackPrefix(out, 1, 1);
    TrackPrefix(out, 2, 1);
    TrackPrefix(out, 3, 1);
    TrackPrefix(out, 4, 1);
    TrackPrefix(out, 5, 1);
    TrackPrefix(out, 6, 1);
    assert out[..7] == out;
  }

  /** The instructions of the padded circuit on qubit 0. */
  lemma BackwardTrack0(out: seq<Timed>)
    requires |out| == 7
    requires out[0] == Timed(Op(Measure, [1], [1], []), 0, 1000)
    requires out[1] == Timed(Op(Measure, [0], [0], []), 0, 1000)
    requires out[2] == Timed(Op(Barrier, [0, 1], [], []), 1000, 0)
    requires out[3] == Timed(Op(Gate("cx"), [0, 1], [], []), 1000, 700)
    requires out[4] == Timed(Op(Gate("h"), [0], [], []), 1700, 200)
    requires out[5] == Idle(0, 1900, 2200)
    requires out[6] == Idle(1, 1700, 2200)
    ensures Track(out, 0) == [Timed(Op(Measure, [0], [0], []), 0, 1000), Timed(Op(Barrier, [0, 1], [], []), 1000, 0), Timed(Op(Gate("cx"), [0, 1], [], []), 1000, 700), Timed(Op(Gate("h"), [0], [], []), 1700, 200), Idle(0, 1900, 2200)]
  {
    assert out[..0] == [];
    TrackPrefix(out, 0, 0);
    TrackPrefix(out, 1, 0);
    TrackPrefix(out, 2, 0);
    TrackPrefix(out, 3, 0);
    TrackPrefix(out, 4, 0);
    TrackPrefix(out, 5, 0);
    TrackPrefix(out, 6, 0);
    assert out[..7] == out;
  }

  /** The instructions of the padded circuit on qubit 1. */
  lemma BackwardTrack1(out: seq<Timed>)
    requires |out| == 7
    requires out[0] == Timed(Op(Measure, [1], [1], []), 0, 1000)
    requires out[1] == Timed(Op(Measure, [0], [0], []), 0, 1000)
    requires out[2] == Timed(Op(Barrier, [0, 1], [], []), 1000, 0)
    requires out[3] == Timed(Op(Gate("cx"), [0, 1], [], []), 1000, 700)
    requires out[4] == Timed(Op(Gate("h"), [0], [], []), 1700, 200)
    requires out[5] == Idle(0, 1900, 2200)
    requires out[6] == Idle(1, 1700, 2200)
    ensures Track(out, 1) == [Timed(Op(Measure, [1], [1], []), 0, 1000), Timed(Op(Barrier, [0, 1], [], []), 1000, 0), Timed(Op(Gate("cx"), [0, 1], [], []), 1000, 700), Idle(1, 1700, 2200)]
  {
    assert out[..0] == [];
    TrackPrefix(out, 0, 1);
    TrackPrefix(out, 1, 1);
    TrackPrefix(out, 2, 1);
    TrackPrefix(out, 3, 1);
    TrackPrefix(out, 4, 1);
    TrackPrefix(out, 5, 1);
    TrackPrefix(out, 6, 1);
    assert out[..7] == out;
  }

  /** On each qubit, the ALAP-padded circuit runs the instructions of the
      ASAP-padded reversed circuit backwards. */
  lemma TracksAgree(a: seq<Timed>, b: seq<Timed>)
    requires a == [Idle(0, 0, 300), Timed(Op(Gate("h"), [0], [], []), 300, 200), Idle(1, 0, 500), Timed(Op(Gate("cx"), [0, 1], [], []), 500, 700), Timed(Op(Barrier, [0, 1], [], []), 1200, 0), Timed(Op(Measure, [0], [0], []), 1200, 1000), Timed(Op(Measure, [1], [1], []), 1200, 1000)]
    requires b == [Timed(Op(Measure, [1], [1], []), 0, 1000), Timed(Op(Measure, [0], [0], []), 0, 1000), Timed(Op(Barrier, [0, 1], [], []), 1000, 0), Timed(Op(Gate("cx"), [0, 1], [], []), 1000, 700), Timed(Op(Gate("h"), [0], [], []), 1700, 200), Idle(0, 1900, 2200), Idle(1, 1700, 2200)]
    ensures ReversedOps(Track(a, 0), Track(b, 0)) && ReversedOps(Track(a, 1), Track(b, 1))
  {
    ForwardTrack0(a);
    ForwardTrack1(a);
    BackwardTrack0(b);
    BackwardTrack1(b);
  }

  /** The reversed circuit, instruction by instruction. */
  lemma Reversal(c: Circuit, durs: seq<nat>)
    requires c.numQubits == 2 && c.numClbits == 2 && |c.ops| == 6 && |durs| == 6
    requires c.ops[0] == Op(Gate("h"), [0], [], []) && durs[0] == 200
    requires c.ops[1] == Op(Delay(500), [1], [], []) && durs[1] == 500
    requires c.ops[2] == Op(Gate("cx"), [0, 1], [], []) && durs[2] == 700
    requires c.ops[3] == Op(Barrier, [0, 1], [], []) && durs[3] == 0
    requires c.ops[4] == Op(Measure, [0], [0], []) && durs[4] == 1000
    requires c.ops[5] == Op(Measure, [1], [1], []) && durs[5] == 1000
    ensures Reverse(c).numQubits == 2 && Reverse(c).numClbits == 2 && |Reverse(c).ops| == 6 && |Reversed(durs)| == 6
    ensures Reverse(c).ops[0] == Op(Measure, [1], [1], []) && Reversed(durs)[0] == 1000
    ensures Reverse(c).ops[1] == Op(Measure, [0], [0], []) && Reversed(durs)[1] == 1000
    ensures Reverse(c).ops[2] == Op(Barrier, [0, 1], [], []) && Reversed(durs)[2] == 0
    ensures Reverse(c).ops[3] == Op(Gate("cx"), [0, 1], [], []) && Reversed(durs)[3] == 700
    ensures Reverse(c).ops[4] == Op(Delay(500), [1], [], []) && Reversed(durs)[4] == 500
    ensures Reverse(c).ops[5] == Op(Gate("h"), [0], [], []) && Reversed(durs)[5] == 200
  {
  }

  /** The ALAP schedule of the circuit is the ASAP schedule of the reversed
      circuit read backwards in time. */
  lemma ReverseScheduleAgreement(c: Circuit, durs: seq<nat>)
    requires c.numQubits == 2 && c.numClbits == 2 && |c.ops| == 6 && |durs| == 6
    requires c.ops[0] == Op(Gate("h"), [0], [], []) && durs[0] == 200
    requires c.ops[1] == Op(Delay(500), [1], [], []) && durs[1] == 500
    requires c.ops[2] == Op(Gate("cx"), [0, 1], [], []) && durs[2] == 700
    requires c.ops[3] == Op(Barrier, [0, 1], [], []) && durs[3] == 0
    requires c.ops[4] == Op(Measure, [0], [0], []) && durs[4] == 1000
    requires c.ops[5] == Op(Measure, [1], [1], []) && durs[5] == 1000
    ensures Alap.Schedule(c, durs, DefaultLatency) == Duality.Mirror(Asap.Schedule(Reverse(c), Reversed(durs), DefaultLatency))
  {
    ForwardWellFormed(c);
    assert Duality.Unconditional(c.ops) by {
      assert !Conditional(c.ops[0]) && !Conditional(c.ops[1]) && !Conditional(c.ops[2]) && !Conditional(c.ops[3]) && !Conditional(c.ops[4]) && !Conditional(c.ops[5]);
    }
    Duality.AlapIsMirroredAsap(c, durs, DefaultLatency);
  }

  /** `a` lists the instructions of `b` in reverse order, each one unchanged. */
  predicate ReversedOps(a: seq<Timed>, b: seq<Timed>)
  {
    |a| == |b| && forall i :: 0 <= i < |a| ==> a[i].op == b[|b| - 1 - i].op
  }

  /** ALAP scheduling and padding of the circuit gives, qubit by qubit, the
      instructions of the ASAP-scheduled and padded reversed circuit in reverse
      order, and the same duration. */
  lemma ReversePadAgreement(c: Circuit, durs: seq<nat>)
    requires c.numQubits == 2 && c.numClbits == 2 && |c.ops| == 6 && |durs| == 6
    requires c.ops[0] == Op(Gate("h"), [0], [], []) && durs[0] == 200
    requires c.ops[1] == Op(Delay(500), [1], [], []) && durs[1] == 500
    requires c.ops[2] == Op(Gate("cx"), [0, 1], [], []) && durs[2] == 700
    requires c.ops[3] == Op(Barrier, [0, 1], [], []) && durs[3] == 0
    requires c.ops[4] == Op(Measure, [0], [0], []) && durs[4] == 1000
    requires c.ops[5] == Op(Measure, [1], [1], []) && durs[5] == 1000
    ensures var a := Pad(c, Some(StartTimes(Alap.Schedule(c, durs, DefaultLatency))), durs, None, true);
      var b := Pad(Reverse(c), Some(StartTimes(Asap.Schedule(Reverse(c), Reversed(durs), DefaultLatency))), Reversed(durs), None, true);
      && a.Success? && b.Success? && a.value.duration == b.value.duration
      && ReversedOps(Track(a.value.ops, 0), Track(b.value.ops, 0))
      && ReversedOps(Track(a.value.ops, 1), Track(b.value.ops, 1))
  {
    ForwardAlapPadded(c, durs);
    Reversal(c, durs);
    BackwardAsapPadded(Reverse(c), Reversed(durs));
    TracksAgree([Idle(0, 0, 300), Timed(Op(Gate("h"), [0], [], []), 300, 200), Idle(1, 0, 500), Timed(Op(Gate("cx"), [0, 1], [], []), 500, 700), Timed(Op(Barrier, [0, 1], [], []), 1200, 0), Timed(Op(Measure, [0], [0], []), 1200, 1000), Timed(Op(Measure, [1], [1], []), 1200, 1000)], [Timed(Op(Measure, [1], [1], []), 0, 1000), Timed(Op(Measure, [0], [0], []), 0, 1000), Timed(Op(Barrier, [0, 1], [], []), 1000, 0), Timed(Op(Gate("cx"), [0, 1], [], []), 1000, 700), Timed(Op(Gate("h"), [0], [], []), 1700, 200), Idle(0, 1900, 2200), Idle(1, 1700, 2200)]);
  }
}
