/** With a write latency of 1000 a measure writes its bit as it ends: the
    conditional gate reads the bit at 1000, and the second measure on the same
    bit may run beside the first, since its write lands no earlier than that read. */
module EdgeLocking {
  import opened Circuits
  import opened Timing
  import opened Durations
  import opened Constraints
  import opened Padding
  import Asap
  import Alap

  /** The circuit is well formed. */
  lemma EdgeWellFormed(c: Circuit)
    requires c.numQubits == 3 && c.numClbits == 1 && |c.ops| == 3
    requires c.ops[0] == Op(Measure, [0], [0], [])
    requires c.ops[1] == Op(Gate("x"), [1], [], [0])
    requires c.ops[2] == Op(Measure, [2], [0], [])
    ensures WellFormed(c)
  {
    assert WellFormedOp(c.ops[0], 3, 1);
    assert WellFormedOp(c.ops[1], 3, 1);
    assert WellFormedOp(c.ops[2], 3, 1);
  }

  /** ASAP from instruction 0 on, given when each wire is free. */
  lemma EdgeAsapFrom0(a: Avail, ops: seq<Op>, durs: seq<nat>)
    requires |ops| == 3 && |durs| == 3
    requires ops[0] == Op(Measure, [0], [0], []) && durs[0] == 1000
    requires ops[1] == Op(Gate("x"), [1], [], [0]) && durs[1] == 200
    requires ops[2] == Op(Measure, [2], [0], []) && durs[2] == 1000
    requires Get(a, Qubit(0)) == 0 && Get(a, Qubit(1)) == 0 && Get(a, Qubit(2)) == 0 && Get(a, Clbit(0)) == 0
    ensures var r := Asap.RunFrom(a, ops[0..], durs[0..], IOLatency(0, 1000));
      r.starts == [0, 1000] + ([0]) && Span(r.avail, 3, 1) == 1200
  {
    var p0 := Asap.Step(a, ops[0], durs[0], IOLatency(0, 1000));
    assert p0.start == 0 && Get(p0.avail, Qubit(0)) == 1000 && Get(p0.avail, Qubit(1)) == 0 && Get(p0.avail, Qubit(2)) == 0 && Get(p0.avail, Clbit(0)) == 1000 by {
      assert QubitWires([0]) == [Qubit(0)] && MaxOver(a, [Qubit(0)]) == 0 && ClbitWires([0]) == [Clbit(0)] && MaxOver(a, [Clbit(0)]) == 0;
    }
    var p1 := Asap.Step(p0.avail, ops[1], durs[1], IOLatency(0, 1000));
    assert p1.start == 1000 && Get(p1.avail, Qubit(0)) == 1000 && Get(p1.avail, Qubit(1)) == 1200 && Get(p1.avail, Qubit(2)) == 0 && Get(p1.avail, Clbit(0)) == 1000 by {
      assert QubitWires([1]) == [Qubit(1)] && MaxOver(p0.avail, [Qubit(1)]) == 0 && ClbitWires([0]) == [Clbit(0)] && MaxOver(p0.avail, [Clbit(0)]) == 1000;
    }
    Asap.RunFromSteps([a, p0.avail, p1.avail], ops[0..2], durs[0..2], [0, 1000], IOLatency(0, 1000));
    Asap.RunFromSplit(a, ops, durs, IOLatency(0, 1000), 0, 2);
    EdgeAsapFrom2(p1.avail, ops, durs);
  }

  /** ASAP from instruction 2 on, given when each wire is free. */
  lemma EdgeAsapFrom2(a: Avail, ops: seq<Op>, durs: seq<nat>)
    requires |ops| == 3 && |durs| == 3
    requires ops[2] == Op(Measure, [2], [0], []) && durs[2] == 1000
    requires Get(a, Qubit(0)) == 1000 && Get(a, Qubit(1)) == 1200 && Get(a, Qubit(2)) == 0 && Get(a, Clbit(0)) == 1000
    ensures var r := Asap.RunFrom(a, ops[2..], durs[2..], IOLatency(0, 1000));
      r.starts == [0] && Span(r.avail, 3, 1) == 1200
  {
    var p2 := Asap.Step(a, ops[2], durs[2], IOLatency(0, 1000));
    assert p2.start == 0 && Get(p2.avail, Qubit(0)) == 1000 && Get(p2.avail, Qubit(1)) == 1200 && Get(p2.avail, Qubit(2)) == 1000 && Get(p2.avail, Clbit(0)) == 1000 by {
      assert QubitWires([2]) == [Qubit(2)] && MaxOver(a, [Qubit(2)]) == 0 && ClbitWires([0]) == [Clbit(0)] && MaxOver(a, [Clbit(0)]) == 1000;
    }
    Asap.RunFromSteps([a, p2.avail], ops[2..], durs[2..], [0], IOLatency(0, 1000));
    assert Span(p2.avail, 3, 1) == 1200 by {
      assert AllWires(3, 1) == [Qubit(0), Qubit(1), Qubit(2), Clbit(0)] && MaxOver(p2.avail, [Clbit(0)]) == 1000 && MaxOver(p2.avail, [Qubit(2), Clbit(0)]) == 1000 && MaxOver(p2.avail, [Qubit(1), Qubit(2), Clbit(0)]) == 1200 && MaxOver(p2.avail, [Qubit(0), Qubit(1), Qubit(2), Clbit(0)]) == 1200;
    }
  }

  /** The start times, gathered. */
  lemma EdgeAsapStarts(starts: seq<int>)
    requires starts == [0, 1000] + ([0])
    ensures starts == [0, 1000, 0]
  {
  }

  /** ASAP scheduling starts the instructions at [0, 1000, 0], and the circuit lasts 1200. */
  lemma EdgeAsap(c: Circuit, durs: seq<nat>)
    requires c.numQubits == 3 && c.numClbits == 1 && |c.ops| == 3 && |durs| == 3
    requires c.ops[0] == Op(Measure, [0], [0], []) && durs[0] == 1000
    requires c.ops[1] == Op(Gate("x"), [1], [], [0]) && durs[1] == 200
    requires c.ops[2] == Op(Measure, [2], [0], []) && durs[2] == 1000
    ensures WellFormed(c)
    ensures Asap.Schedule(c, durs, IOLatency(0, 1000)) == Timing.Schedule([0, 1000, 0], durs, 1200)
  {
    EdgeWellFormed(c);
    WellFormedSchedulable(c);
    Asap.RunIsRunFrom(c.ops, durs, IOLatency(0, 1000));
    assert c.ops[0..] == c.ops && durs[0..] == durs;
    EdgeAsapFrom0(map[], c.ops, durs);
    EdgeAsapStarts(Asap.Run(c.ops, durs, IOLatency(0, 1000)).starts);
  }

  /** ALAP over the instructions before 1, given when each wire is needed by the later ones. */
  lemma EdgeAlapTo1(a: Avail, ops: seq<Op>, durs: seq<nat>)
    requires |ops| == 3 && |durs| == 3
    requires ops[0] == Op(Measure, [0], [0], []) && durs[0] == 1000
    requires Get(a, Qubit(0)) == 0 && Get(a, Qubit(1)) == 200 && Get(a, Qubit(2)) == 1000 && Get(a, Clbit(0)) == 200
    ensures var r := Alap.RunFrom(a, ops[..1], durs[..1], IOLatency(0, 1000));
      r.starts == [200] && Span(r.avail, 3, 1) == 1200
  {
    var p0 := Alap.Step(a, ops[0], durs[0], IOLatency(0, 1000));
    assert p0.start == 200 && Get(p0.avail, Qubit(0)) == 1200 && Get(p0.avail, Qubit(1)) == 200 && Get(p0.avail, Qubit(2)) == 1000 && Get(p0.avail, Clbit(0)) == 200 by {
      assert QubitWires([0]) == [Qubit(0)] && MaxOver(a, [Qubit(0)]) == 0 && ClbitWires([0]) == [Clbit(0)] && MaxOver(a, [Clbit(0)]) == 200;
    }
    Alap.RunFromSteps([p0.avail, a], ops[0..1], durs[0..1], [200], IOLatency(0, 1000));
    Alap.RunFromSplit(a, ops, durs, IOLatency(0, 1000), 0, 1);
    assert Span(p0.avail, 3, 1) == 1200 by {
      assert AllWires(3, 1) == [Qubit(0), Qubit(1), Qubit(2), Clbit(0)] && MaxOver(p0.avail, [Clbit(0)]) == 200 && MaxOver(p0.avail, [Qubit(2), Clbit(0)]) == 1000 && MaxOver(p0.avail, [Qubit(1), Qubit(2), Clbit(0)]) == 1000 && MaxOver(p0.avail, [Qubit(0), Qubit(1), Qubit(2), Clbit(0)]) == 1200;
    }
  }

  /** ALAP over the instructions before 3, given when each wire is needed by the later ones. */
  lemma EdgeAlapTo3(a: Avail, ops: seq<Op>, durs: seq<nat>)
    requires |ops| == 3 && |durs| == 3
    requires ops[0] == Op(Measure, [0], [0], []) && durs[0] == 1000
    requires ops[1] == Op(Gate("x"), [1], [], [0]) && durs[1] == 200
    requires ops[2] == Op(Measure, [2], [0], []) && durs[2] == 1000
    requires Get(a, Qubit(0)) == 0 && Get(a, Qubit(1)) == 0 && Get(a, Qubit(2)) == 0 && Get(a, Clbit(0)) == 0
    ensures var r := Alap.RunFrom(a, ops[..3], durs[..3], IOLatency(0, 1000));
      r.starts == ([200]) + [0, 0] && Span(r.avail, 3, 1) == 1200
  {
    var p2 := Alap.Step(a, ops[2], durs[2], IOLatency(0, 1000));
    assert p2.start == 0 && Get(p2.avail, Qubit(0)) == 0 && Get(p2.avail, Qubit(1)) == 0 && Get(p2.avail, Qubit(2)) == 1000 && Get(p2.avail, Clbit(0)) == 0 by {
      assert QubitWires([2]) == [Qubit(2)] && MaxOver(a, [Qubit(2)]) == 0 && ClbitWires([0]) == [Clbit(0)] && MaxOver(a, [Clbit(0)]) == 0;
    }
    var p1 := Alap.Step(p2.avail, ops[1], durs[1], IOLatency(0, 1000));
    assert p1.start == 0 && Get(p1.avail, Qubit(0)) == 0 && Get(p1.avail, Qubit(1)) == 200 && Get(p1.avail, Qubit(2)) == 1000 && Get(p1.avail, Clbit(0)) == 200 by {
      assert QubitWires([1]) == [Qubit(1)] && MaxOver(p2.avail, [Qubit(1)]) == 0 && ClbitWires([0]) == [Clbit(0)] && MaxOver(p2.avail, [Clbit(0)]) == 0;
    }
    Alap.RunFromSteps([p1.avail, p2.avail, a], ops[1..3], durs[1..3], [0, 0], IOLatency(0, 1000));
    Alap.RunFromSplit(a, ops, durs, IOLatency(0, 1000), 1, 3);
    EdgeAlapTo1(p1.avail, ops, durs);
  }

  /** Start times counted from the beginning. */
  lemma EdgeAlapFlip(ends: seq<int>, durs: seq<nat>)
    requires ends == ([200]) + [0, 0] && |durs| == 3
    requires durs[0] == 1000
    requires durs[1] == 200
    requires durs[2] == 1000
    ensures Alap.Flip(ends, durs, 1200) == [0, 1000, 200]
  {
  }
  /** ALAP scheduling starts the instructions at [0, 1000, 200], and the circuit lasts 1200. */
  lemma EdgeAlap(c: Circuit, durs: seq<nat>)
    requires c.numQubits == 3 && c.numClbits == 1 && |c.ops| == 3 && |durs| == 3
    requires c.ops[0] == Op(Measure, [0], [0], []) && durs[0] == 1000
    requires c.ops[1] == Op(Gate("x"), [1], [], [0]) && durs[1] == 200
    requires c.ops[2] == Op(Measure, [2], [0], []) && durs[2] == 1000
    ensures WellFormed(c)
    ensures Alap.Schedule(c, durs, IOLatency(0, 1000)) == Timing.Schedule([0, 1000, 200], durs, 1200)
  {
    EdgeWellFormed(c);
    WellFormedSchedulable(c);
    Alap.RunIsRunFrom(c.ops, durs, IOLatency(0, 1000));
    assert c.ops[..3] == c.ops && durs[..3] == durs;
    EdgeAlapTo3(map[], c.ops, durs);
    EdgeAlapFlip(Alap.Run(c.ops, durs, IOLatency(0, 1000)).starts, durs);
  }

  /** Padding from instruction 0 on, given each qubit's cursor. */
  lemma EdgeAsapPadFrom0(cur: Avail, o: seq<Timed>, ops: seq<Op>, starts: seq<int>, durs: seq<nat>)
    requires |ops| == 3 && |starts| == 3 && |durs| == 3
    requires ops[0] == Op(Measure, [0], [0], []) && starts[0] == 0 && durs[0] == 1000
    requires ops[1] == Op(Gate("x"), [1], [], [0]) && starts[1] == 1000 && durs[1] == 200
    requires ops[2] == Op(Measure, [2], [0], []) && starts[2] == 0 && durs[2] == 1000
    requires Get(cur, Qubit(0)) == 0 && Get(cur, Qubit(1)) == 0 && Get(cur, Qubit(2)) == 0
    ensures var r := PadFrom(PadState(cur, o), ops[0..], starts[0..], durs[0..], None);
      r.out == ((o + [Timed(Op(Measure, [0], [0], []), 0, 1000)]) + [Idle(1, 0, 1000), Timed(Op(Gate("x"), [1], [], [0]), 1000, 200)]) + [Timed(Op(Measure, [2], [0], []), 0, 1000)] && Get(r.cursor, Qubit(0)) == 1000 && Get(r.cursor, Qubit(1)) == 1200 && Get(r.cursor, Qubit(2)) == 1000
  {
    PadFromAt(PadState(cur, o), ops, starts, durs, None, 0);
    var s0 := PlaceOp(PadState(cur, []), ops[0], starts[0], durs[0], None);
    assert s0.out == [Timed(Op(Measure, [0], [0], []), 0, 1000)] && Get(s0.cursor, Qubit(0)) == 1000 && Get(s0.cursor, Qubit(1)) == 0 && Get(s0.cursor, Qubit(2)) == 0;
    PlaceOpOut(cur, o, ops[0], starts[0], durs[0], None);
    EdgeAsapPadFrom1(s0.cursor, o + [Timed(Op(Measure, [0], [0], []), 0, 1000)], ops, starts, durs);
  }

  /** Padding from instruction 1 on, given each qubit's cursor. */
  lemma EdgeAsapPadFrom1(cur: Avail, o: seq<Timed>, ops: seq<Op>, starts: seq<int>, durs: seq<nat>)
    requires |ops| == 3 && |starts| == 3 && |durs| == 3
    requires ops[1] == Op(Gate("x"), [1], [], [0]) && starts[1] == 1000 && durs[1] == 200
    requires ops[2] == Op(Measure, [2], [0], []) && starts[2] == 0 && durs[2] == 1000
    requires Get(cur, Qubit(0)) == 1000 && Get(cur, Qubit(1)) == 0 && Get(cur, Qubit(2)) == 0
    ensures var r := PadFrom(PadState(cur, o), ops[1..], starts[1..], durs[1..], None);
      r.out == (o + [Idle(1, 0, 1000), Timed(Op(Gate("x"), [1], [], [0]), 1000, 200)]) + [Timed(Op(Measure, [2], [0], []), 0, 1000)] && Get(r.cursor, Qubit(0)) == 1000 && Get(r.cursor, Qubit(1)) == 1200 && Get(r.cursor, Qubit(2)) == 1000
  {
    PadFromAt(PadState(cur, o), ops, starts, durs, None, 1);
    var s1 := PlaceOp(PadState(cur, []), ops[1], starts[1], durs[1], None);
    assert s1.out == [Idle(1, 0, 1000), Timed(Op(Gate("x"), [1], [], [0]), 1000, 200)] && Get(s1.cursor, Qubit(0)) == 1000 && Get(s1.cursor, Qubit(1)) == 1200 && Get(s1.cursor, Qubit(2)) == 0;
    PlaceOpOut(cur, o, ops[1], starts[1], durs[1], None);
    EdgeAsapPadFrom2(s1.cursor, o + [Idle(1, 0, 1000), Timed(Op(Gate("x"), [1], [], [0]), 1000, 200)], ops, starts, durs);
  }

  /** Padding from instruction 2 on, given each qubit's cursor. */
  lemma EdgeAsapPadFrom2(cur: Avail, o: seq<Timed>, ops: seq<Op>, starts: seq<int>, durs: seq<nat>)
    requires |ops| == 3 && |starts| == 3 && |durs| == 3
    requires ops[2] == Op(Measure, [2], [0], []) && starts[2] == 0 && durs[2] == 1000
    requires Get(cur, Qubit(0)) == 1000 && Get(cur, Qubit(1)) == 1200 && Get(cur, Qubit(2)) == 0
    ensures var r := PadFrom(PadState(cur, o), ops[2..], starts[2..], durs[2..], None);
      r.out == o + [Timed(Op(Measure, [2], [0], []), 0, 1000)] && Get(r.cursor, Qubit(0)) == 1000 && Get(r.cursor, Qubit(1)) == 1200 && Get(r.cursor, Qubit(2)) == 1000
  {
    PadFromAt(PadState(cur, o), ops, starts, durs, None, 2);
    var s2 := PlaceOp(PadState(cur, []), ops[2], starts[2], durs[2], None);
    assert s2.out == [Timed(Op(Measure, [2], [0], []), 0, 1000)] && Get(s2.cursor, Qubit(0)) == 1000 && Get(s2.cursor, Qubit(1)) == 1200 && Get(s2.cursor, Qubit(2)) == 1000;
    PlaceOpOut(cur, o, ops[2], starts[2], durs[2], None);
    assert ops[3..] == [] && starts[3..] == [] && durs[3..] == [];
  }

  /** The latest end of any instruction. */
  lemma EdgeAsapPadLatestEnd(starts: seq<int>, durs: seq<nat>)
    requires starts == [0, 1000, 0] && |durs| == 3
    requires durs[0] == 1000
    requires durs[1] == 200
    requires durs[2] == 1000
    ensures LatestEnd(starts, durs) == 1200
  {
  }

  /** The delays after the last instruction. */
  lemma EdgeAsapPadEndGaps(cur: Avail)
    requires Get(cur, Qubit(0)) == 1000 && Get(cur, Qubit(1)) == 1200 && Get(cur, Qubit(2)) == 1000
    ensures EndGaps(cur, 3, 1200, None) == [Idle(0, 1000, 1200), Idle(2, 1000, 1200)]
  {
    assert true && EndGaps(cur, 1, 1200, None) == [Idle(0, 1000, 1200)] && EndGaps(cur, 2, 1200, None) == [Idle(0, 1000, 1200)];
  }

  /** The padded instructions in order. */
  lemma EdgeAsapPaddedOut(body: seq<Timed>, tail: seq<Timed>)
    requires body == (([] + [Timed(Op(Measure, [0], [0], []), 0, 1000)]) + [Idle(1, 0, 1000), Timed(Op(Gate("x"), [1], [], [0]), 1000, 200)]) + [Timed(Op(Measure, [2], [0], []), 0, 1000)] && tail == [Idle(0, 1000, 1200), Idle(2, 1000, 1200)]
    ensures body + tail == [Timed(Op(Measure, [0], [0], []), 0, 1000), Idle(1, 0, 1000), Timed(Op(Gate("x"), [1], [], [0]), 1000, 200), Timed(Op(Measure, [2], [0], []), 0, 1000), Idle(0, 1000, 1200), Idle(2, 1000, 1200)]
  {
  }

  /** Padding the ASAP schedule gives these instructions, in this order, and the duration 1200. */
  lemma EdgeAsapPadded(c: Circuit, durs: seq<nat>)
    requires c.numQubits == 3 && c.numClbits == 1 && |c.ops| == 3 && |durs| == 3
    requires c.ops[0] == Op(Measure, [0], [0], []) && durs[0] == 1000
    requires c.ops[1] == Op(Gate("x"), [1], [], [0]) && durs[1] == 200
    requires c.ops[2] == Op(Measure, [2], [0], []) && durs[2] == 1000
    ensures Pad(c, Some(StartTimes(Asap.Schedule(c, durs, IOLatency(0, 1000)))), durs, None, true) == Success(Padded([Timed(Op(Measure, [0], [0], []), 0, 1000), Idle(1, 0, 1000), Timed(Op(Gate("x"), [1], [], [0]), 1000, 200), Timed(Op(Measure, [2], [0], []), 0, 1000), Idle(0, 1000, 1200), Idle(2, 1000, 1200)], 1200))
  {
    EdgeAsap(c, durs);
    var s := Timing.Schedule([0, 1000, 0], durs, 1200);
    EdgeAsapPadFrom0(map[], [], c.ops, s.starts, durs);
    assert c.ops[0..] == c.ops && s.starts[0..] == s.starts && durs[0..] == durs;
    var st := PadFrom(PadState(map[], []), c.ops, s.starts, durs, None);
    EdgeAsapPadLatestEnd(s.starts, durs);
    PadOfSchedule(c, s, None, true, st, 1200);
    EdgeAsapPadEndGaps(st.cursor);
    EdgeAsapPaddedOut(st.out, [Idle(0, 1000, 1200), Idle(2, 1000, 1200)]);
  }

  /** Padding from instruction 0 on, given each qubit's cursor. */
  lemma EdgeAlapPadFrom0(cur: Avail, o: seq<Timed>, ops: seq<Op>, starts: seq<int>, durs: seq<nat>)
    requires |ops| == 3 && |starts| == 3 && |durs| == 3
    requires ops[0] == Op(Measure, [0], [0], []) && starts[0] == 0 && durs[0] == 1000
    requires ops[1] == Op(Gate("x"), [1], [], [0]) && starts[1] == 1000 && durs[1] == 200
    requires ops[2] == Op(Measure, [2], [0], []) && starts[2] == 200 && durs[2] == 1000
    requires Get(cur, Qubit(0)) == 0 && Get(cur, Qubit(1)) == 0 && Get(cur, Qubit(2)) == 0
    ensures var r := PadFrom(PadState(cur, o), ops[0..], starts[0..], durs[0..], None);
      r.out == ((o + [Timed(Op(Measure, [0], [0], []), 0, 1000)]) + [Idle(1, 0, 1000), Timed(Op(Gate("x"), [1], [], [0]), 1000, 200)]) + [Idle(2, 0, 200), Timed(Op(Measure, [2], [0], []), 200, 1000)] && Get(r.cursor, Qubit(0)) == 1000 && Get(r.cursor, Qubit(1)) == 1200 && Get(r.cursor, Qubit(2)) == 1200
  {
    PadFromAt(PadState(cur, o), ops, starts, durs, None, 0);
    var s0 := PlaceOp(PadState(cur, []), ops[0], starts[0], durs[0], None);
    assert s0.out == [Timed(Op(Measure, [0], [0], []), 0, 1000)] && Get(s0.cursor, Qubit(0)) == 1000 && Get(s0.cursor, Qubit(1)) == 0 && Get(s0.cursor, Qubit(2)) == 0;
    PlaceOpOut(cur, o, ops[0], starts[0], durs[0], None);
    EdgeAlapPadFrom1(s0.cursor, o + [Timed(Op(Measure, [0], [0], []), 0, 1000)], ops, starts, durs);
  }

  /** Padding from instruction 1 on, given each qubit's cursor. */
  lemma EdgeAlapPadFrom1(cur: Avail, o: seq<Timed>, ops: seq<Op>, starts: seq<int>, durs: seq<nat>)
    requires |ops| == 3 && |starts| == 3 && |durs| == 3
    requires ops[1] == Op(Gate("x"), [1], [], [0]) && starts[1] == 1000 && durs[1] == 200
    requires ops[2] == Op(Measure, [2], [0], []) && starts[2] == 200 && durs[2] == 1000
    requires Get(cur, Qubit(0)) == 1000 && Get(cur, Qubit(1)) == 0 && Get(cur, Qubit(2)) == 0
    ensures var r := PadFrom(PadState(cur, o), ops[1..], starts[1..], durs[1..], None);
      r.out == (o + [Idle(1, 0, 1000), Timed(Op(Gate("x"), [1], [], [0]), 1000, 200)]) + [Idle(2, 0, 200), Timed(Op(Measure, [2], [0], []), 200, 1000)] && Get(r.cursor, Qubit(0)) == 1000 && Get(r.cursor, Qubit(1)) == 1200 && Get(r.cursor, Qubit(2)) == 1200
  {
    PadFromAt(PadState(cur, o), ops, starts, durs, None, 1);
    var s1 := PlaceOp(PadState(cur, []), ops[1], starts[1], durs[1], None);
    assert s1.out == [Idle(1, 0, 1000), Timed(Op(Gate("x"), [1], [], [0]), 1000, 200)] && Get(s1.cursor, Qubit(0)) == 1000 && Get(s1.cursor, Qubit(1)) == 1200 && Get(s1.cursor, Qubit(2)) == 0;
    PlaceOpOut(cur, o, ops[1], starts[1], durs[1], None);
    EdgeAlapPadFrom2(s1.cursor, o + [Idle(1, 0, 1000), Timed(Op(Gate("x"), [1], [], [0]), 1000, 200)], ops, starts, durs);
  }

  /** Padding from instruction 2 on, given each qubit's cursor. */
  lemma EdgeAlapPadFrom2(cur: Avail, o: seq<Timed>, ops: seq<Op>, starts: seq<int>, durs: seq<nat>)
    requires |ops| == 3 && |starts| == 3 && |durs| == 3
    requires ops[2] == Op(Measure, [2], [0], []) && starts[2] == 200 && durs[2] == 1000
    requires Get(cur, Qubit(0)) == 1000 && Get(cur, Qubit(1)) == 1200 && Get(cur, Qubit(2)) == 0
    ensures var r := PadFrom(PadState(cur, o), ops[2..], starts[2..], durs[2..], None);
      r.out == o + [Idle(2, 0, 200), Timed(Op(Measure, [2], [0], []), 200, 1000)] && Get(r.cursor, Qubit(0)) == 1000 && Get(r.cursor, Qubit(1)) == 1200 && Get(r.cursor, Qubit(2)) == 1200
  {
    PadFromAt(PadState(cur, o), ops, starts, durs, None, 2);
    var s2 := PlaceOp(PadState(cur, []), ops[2], starts[2], durs[2], None);
    assert s2.out == [Idle(2, 0, 200), Timed(Op(Measure, [2], [0], []), 200, 1000)] && Get(s2.cursor, Qubit(0)) == 1000 && Get(s2.cursor, Qubit(1)) == 1200 && Get(s2.cursor, Qubit(2)) == 1200;
    PlaceOpOut(cur, o, ops[2], starts[2], durs[2], None);
    assert ops[3..] == [] && starts[3..] == [] && durs[3..] == [];
  }

  /** The latest end of any instruction. */
  lemma EdgeAlapPadLatestEnd(starts: seq<int>, durs: seq<nat>)
    requires starts == [0, 1000, 200] && |durs| == 3
    requires durs[0] == 1000
    requires durs[1] == 200
    requires durs[2] == 1000
    ensures LatestEnd(starts, durs) == 1200
  {
  }

  /** The delays after the last instruction. */
  lemma EdgeAlapPadEndGaps(cur: Avail)
    requires Get(cur, Qubit(0)) == 1000 && Get(cur, Qubit(1)) == 1200 && Get(cur, Qubit(2)) == 1200
    ensures EndGaps(cur, 3, 1200, None) == [Idle(0, 1000, 1200)]
  {
    assert true && EndGaps(cur, 1, 1200, None) == [Idle(0, 1000, 1200)] && EndGaps(cur, 2, 1200, None) == [Idle(0, 1000, 1200)];
  }

  /** The padded instructions in order. */
  lemma EdgeAlapPaddedOut(body: seq<Timed>, tail: seq<Timed>)
    requires body == (([] + [Timed(Op(Measure, [0], [0], []), 0, 1000)]) + [Idle(1, 0, 1000), Timed(Op(Gate("x"), [1], [], [0]), 1000, 200)]) + [Idle(2, 0, 200), Timed(Op(Measure, [2], [0], []), 200, 1000)] && tail == [Idle(0, 1000, 1200)]
    ensures body + tail == [Timed(Op(Measure, [0], [0], []), 0, 1000), Idle(1, 0, 1000), Timed(Op(Gate("x"), [1], [], [0]), 1000, 200), Idle(2, 0, 200), Timed(Op(Measure, [2], [0], []), 200, 1000), Idle(0, 1000, 1200)]
  {
  }

  /** Padding the ALAP schedule gives these instructions, in this order, and the duration 1200. */
  lemma EdgeAlapPadded(c: Circuit, durs: seq<nat>)
    requires c.numQubits == 3 && c.numClbits == 1 && |c.ops| == 3 && |durs| == 3
    requires c.ops[0] == Op(Measure, [0], [0], []) && durs[0] == 1000
    requires c.ops[1] == Op(Gate("x"), [1], [], [0]) && durs[1] == 200
    requires c.ops[2] == Op(Measure, [2], [0], []) && durs[2] == 1000
    ensures Pad(c, Some(StartTimes(Alap.Schedule(c, durs, IOLatency(0, 1000)))), durs, None, true) == Success(Padded([Timed(Op(Measure, [0], [0], []), 0, 1000), Idle(1, 0, 1000), Timed(Op(Gate("x"), [1], [], [0]), 1000, 200), Idle(2, 0, 200), Timed(Op(Measure, [2], [0], []), 200, 1000), Idle(0, 1000, 1200)], 1200))
  {
    EdgeAlap(c, durs);
    var s := Timing.Schedule([0, 1000, 200], durs, 1200);
    EdgeAlapPadFrom0(map[], [], c.ops, s.starts, durs);
    assert c.ops[0..] == c.ops && s.starts[0..] == s.starts && durs[0..] == durs;
    var st := PadFrom(PadState(map[], []), c.ops, s.starts, durs, None);
    EdgeAlapPadLatestEnd(s.starts, durs);
    PadOfSchedule(c, s, None, true, st, 1200);
    EdgeAlapPadEndGaps(st.cursor);
    EdgeAlapPaddedOut(st.out, [Idle(0, 1000, 1200)]);
  }

  /** The duration of each instruction, as the scheduling passes look it up. */
  lemma EdgeDurations(c: Circuit)
    requires |c.ops| == 3
    requires c.ops[0] == Op(Measure, [0], [0], [])
    requires c.ops[1] == Op(Gate("x"), [1], [], [0])
    requires c.ops[2] == Op(Measure, [2], [0], [])
    ensures AllResolved(map[], FromEntries([Entry("x", None, 200), Entry("measure", None, 1000)]), c.ops) && DurationsOf(map[], FromEntries([Entry("x", None, 200), Entry("measure", None, 1000)]), c.ops) == [1000, 200, 1000]
  {
    var t := FromEntries([Entry("x", None, 200), Entry("measure", None, 1000)]);
    assert NodeDuration(map[], t, c.ops[0]) == Some(1000);
    assert NodeDuration(map[], t, c.ops[1]) == Some(200);
    assert NodeDuration(map[], t, c.ops[2]) == Some(1000);
    DurationsAre(map[], t, c.ops, [1000, 200, 1000]);
  }
}
